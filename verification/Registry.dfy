/** The runtime registry (runtime.rs): one entry table with three indexes over it, expiry,
    capacity limits and idempotent admission. Every method is one scope of the registry lock. */
module Registry {
  import opened Listing
  import opened Wrappers

  datatype Error =
    | InvalidArgument
    | IdempotencyConflict
    | Unavailable
    | ResourceLimit
    | GenerationMismatch
    | Io

  datatype PageCursor = PageCursor(generation: Uuid, after: nat, through: nat, filter: Filter)
  datatype Snapshot = Snapshot(handle: Uuid, labels: Labels, state: State)
  datatype ExecutionPage = ExecutionPage(executions: seq<Snapshot>, next: Option<PageCursor>)

  function Show(e: Entry): Snapshot { Snapshot(e.handle, e.labels, e.state) }

  predicate Expired(e: Entry, now: Time, retention: nat, runRetention: nat) {
    e.finishedAt.Some? && now - e.finishedAt.value >= if e.runRequest.Some? then runRetention else retention
  }

  // What an admitted entry looks like, whatever its session does later.
  ghost predicate EntryOk(e: Entry) {
    && (e.startRequest.Some? <==> e.runRequest.None?)
    && (e.state == Finished <==> e.finishedAt.Some?)
  }

  // The three indexes name exactly the live entries, each under its own key.
  ghost predicate EntryIndexed(
    s: nat, e: Entry, handles: map<Uuid, nat>, starts: map<string, nat>, runs: map<string, nat>)
  {
    && EntryOk(e)
    && e.handle in handles && handles[e.handle] == s
    && (e.startRequest.Some? ==> e.startRequest.value.startId in starts && starts[e.startRequest.value.startId] == s)
    && (e.runRequest.Some? ==> e.runRequest.value.runId in runs && runs[e.runRequest.value.runId] == s)
  }

  ghost predicate HandlesLive(t: Table, handles: map<Uuid, nat>) {
    forall h :: h in handles ==> handles[h] in t && t[handles[h]].handle == h
  }

  ghost predicate StartsLive(t: Table, starts: map<string, nat>) {
    forall id :: id in starts ==>
      starts[id] in t && t[starts[id]].startRequest.Some? && t[starts[id]].startRequest.value.startId == id
  }

  ghost predicate RunsLive(t: Table, runs: map<string, nat>) {
    forall id :: id in runs ==>
      runs[id] in t && t[runs[id]].runRequest.Some? && t[runs[id]].runRequest.value.runId == id
  }

  ghost predicate Indexed(
    t: Table, handles: map<Uuid, nat>, starts: map<string, nat>, runs: map<string, nat>)
  {
    && (forall s :: s in t ==> EntryIndexed(s, t[s], handles, starts, runs))
    && HandlesLive(t, handles) && StartsLive(t, starts) && RunsLive(t, runs)
  }

  // What expiry leaves.
  function Retained(t: Table, now: Time, retention: nat, runRetention: nat): Table {
    map s | s in t && !Expired(t[s], now, retention, runRetention) :: t[s]
  }

  function Gone(t: Table, now: Time, retention: nat, runRetention: nat): set<nat> {
    set s | s in t && Expired(t[s], now, retention, runRetention)
  }

  function Waiting(pending: map<string, Time>, now: Time, runRetention: nat): map<string, Time> {
    map id | id in pending && now - pending[id] < runRetention :: pending[id]
  }

  ghost predicate StartedBy(e: Entry, startId: string) {
    e.startRequest.Some? && e.startRequest.value.startId == startId
  }

  ghost predicate RunBy(e: Entry, runId: string) {
    e.runRequest.Some? && e.runRequest.value.runId == runId
  }

  ghost predicate NoStart(t: Table, startId: string) {
    forall k :: k in t ==> !StartedBy(t[k], startId)
  }

  ghost predicate NoRun(t: Table, runId: string) {
    forall k :: k in t ==> !RunBy(t[k], runId)
  }

  // The identity is taken by a request with other arguments.
  ghost predicate StartConflict(t: Table, request: StartRequest) {
    exists k :: k in t && StartedBy(t[k], request.startId) && t[k].startRequest.value != request
  }

  ghost predicate RunConflict(t: Table, request: RunRequest) {
    exists k :: k in t && RunBy(t[k], request.runId) && t[k].runRequest.value != request
  }

  // The request is known, with the same arguments.
  ghost predicate StartKnown(t: Table, request: StartRequest) {
    exists k :: k in t && t[k].startRequest == Some(request)
  }

  ghost predicate RunKnown(t: Table, request: RunRequest) {
    exists k :: k in t && t[k].runRequest == Some(request)
  }

  function WithoutStart(starts: map<string, nat>, e: Entry): map<string, nat> {
    if e.startRequest.Some? then starts - {e.startRequest.value.startId} else starts
  }

  function WithoutRun(runs: map<string, nat>, e: Entry): map<string, nat> {
    if e.runRequest.Some? then runs - {e.runRequest.value.runId} else runs
  }

  function WithStart(starts: map<string, nat>, e: Entry, s: nat): map<string, nat> {
    if e.startRequest.Some? then starts[e.startRequest.value.startId := s] else starts
  }

  function WithRun(runs: map<string, nat>, e: Entry, s: nat): map<string, nat> {
    if e.runRequest.Some? then runs[e.runRequest.value.runId := s] else runs
  }

  lemma UnknownIds(t: Table, handles: map<Uuid, nat>, starts: map<string, nat>, runs: map<string, nat>, id: string)
    requires Indexed(t, handles, starts, runs)
    ensures id !in starts ==> NoStart(t, id)
    ensures id !in runs ==> NoRun(t, id)
  {
    forall k | k in t
      ensures StartedBy(t[k], id) ==> id in starts
      ensures RunBy(t[k], id) ==> id in runs
    {
      assert EntryIndexed(k, t[k], handles, starts, runs);
    }
  }

  // The entry an identifier leads to decides between a retry and a conflict.
  lemma StartDecides(t: Table, handles: map<Uuid, nat>, starts: map<string, nat>, runs: map<string, nat>,
                     request: StartRequest)
    requires Indexed(t, handles, starts, runs)
    ensures request.startId !in starts ==> NoStart(t, request.startId)
    ensures StartKnown(t, request) <==>
              request.startId in starts && t[starts[request.startId]].startRequest == Some(request)
    ensures StartConflict(t, request) <==>
              request.startId in starts && t[starts[request.startId]].startRequest != Some(request)
  {
    UnknownIds(t, handles, starts, runs, request.startId);
    forall k | k in t && StartedBy(t[k], request.startId)
      ensures request.startId in starts && starts[request.startId] == k
    {
      assert EntryIndexed(k, t[k], handles, starts, runs);
    }
    if request.startId in starts {
      assert StartedBy(t[starts[request.startId]], request.startId);
    }
  }

  lemma RunDecides(t: Table, handles: map<Uuid, nat>, starts: map<string, nat>, runs: map<string, nat>,
                   request: RunRequest)
    requires Indexed(t, handles, starts, runs)
    ensures request.runId !in runs ==> NoRun(t, request.runId)
    ensures RunKnown(t, request) <==> request.runId in runs && t[runs[request.runId]].runRequest == Some(request)
    ensures RunConflict(t, request) <==> request.runId in runs && t[runs[request.runId]].runRequest != Some(request)
  {
    UnknownIds(t, handles, starts, runs, request.runId);
    forall k | k in t && RunBy(t[k], request.runId)
      ensures request.runId in runs && runs[request.runId] == k
    {
      assert EntryIndexed(k, t[k], handles, starts, runs);
    }
    if request.runId in runs {
      assert RunBy(t[runs[request.runId]], request.runId);
    }
  }

  lemma RemoveKeepsIndexed(
    t: Table, handles: map<Uuid, nat>, starts: map<string, nat>, runs: map<string, nat>, s: nat)
    requires Indexed(t, handles, starts, runs) && s in t
    ensures Indexed(t - {s}, handles - {t[s].handle}, WithoutStart(starts, t[s]), WithoutRun(runs, t[s]))
  {
    var e := t[s];
    assert EntryIndexed(s, e, handles, starts, runs);
    forall k | k in t - {s}
      ensures EntryIndexed(k, t[k], handles - {e.handle}, WithoutStart(starts, e), WithoutRun(runs, e))
    {
      assert EntryIndexed(k, t[k], handles, starts, runs);
    }
  }

  lemma InsertKeepsIndexed(
    t: Table, handles: map<Uuid, nat>, starts: map<string, nat>, runs: map<string, nat>, s: nat, e: Entry)
    requires Indexed(t, handles, starts, runs) && s !in t && EntryOk(e)
    requires e.handle !in handles
    requires e.startRequest.Some? ==> e.startRequest.value.startId !in starts
    requires e.runRequest.Some? ==> e.runRequest.value.runId !in runs
    ensures Indexed(t[s := e], handles[e.handle := s], WithStart(starts, e, s), WithRun(runs, e, s))
  {
    assert EntryIndexed(s, e, handles[e.handle := s], WithStart(starts, e, s), WithRun(runs, e, s));
    forall k | k in t
      ensures EntryIndexed(k, t[k], handles[e.handle := s], WithStart(starts, e, s), WithRun(runs, e, s))
    {
      assert EntryIndexed(k, t[k], handles, starts, runs);
    }
  }

  lemma MoveKeepsIndexed(
    t: Table, handles: map<Uuid, nat>, starts: map<string, nat>, runs: map<string, nat>, s: nat, e: Entry)
    requires Indexed(t, handles, starts, runs) && s in t && EntryOk(e) && SameIdentity(t[s], e)
    ensures Indexed(t[s := e], handles, starts, runs)
  {
    forall k | k in t
      ensures EntryIndexed(k, t[s := e][k], handles, starts, runs)
    {
      assert EntryIndexed(k, t[k], handles, starts, runs);
    }
  }

  function ActiveSet(entries: Table): set<nat> {
    set s | s in entries && entries[s].state != Finished
  }

  // Dropping entries, or finishing one, makes no execution active.
  lemma ActiveShrinks(before: Table, after: Table)
    requires forall s :: s in after ==> s in before && (after[s].state != Finished ==> before[s].state != Finished)
    ensures |after| <= |before| && |ActiveSet(after)| <= |ActiveSet(before)|
  {
    SubmapSize(after, before);
    SubsetSize(ActiveSet(after), ActiveSet(before));
  }

  // What a sequence number stands for never changes.
  ghost predicate SameIdentity(a: Entry, b: Entry) {
    a.handle == b.handle && a.labels == b.labels && a.startRequest == b.startRequest && a.runRequest == b.runRequest
  }

  // Indexed, numbered below the next sequence, and within the limits.
  ghost predicate Consistent(
    t: Table, handles: map<Uuid, nat>, starts: map<string, nat>, runs: map<string, nat>, next: nat,
    maxActive: nat, maxRetained: nat)
  {
    && next > 0
    && (forall s :: s in t ==> 0 < s < next)
    && Indexed(t, handles, starts, runs)
    && |t| <= maxRetained
    && |ActiveSet(t)| <= maxActive
  }

  lemma InsertKeepsConsistent(
    t: Table, handles: map<Uuid, nat>, starts: map<string, nat>, runs: map<string, nat>, next: nat, e: Entry,
    maxActive: nat, maxRetained: nat)
    requires Consistent(t, handles, starts, runs, next, maxActive, maxRetained)
    requires EntryOk(e) && e.state != Finished && e.handle !in handles
    requires e.startRequest.Some? ==> e.startRequest.value.startId !in starts
    requires e.runRequest.Some? ==> e.runRequest.value.runId !in runs
    requires |ActiveSet(t)| < maxActive && |t| < maxRetained
    ensures Consistent(t[next := e], handles[e.handle := next], WithStart(starts, e, next), WithRun(runs, e, next),
                       next + 1, maxActive, maxRetained)
  {
    InsertKeepsIndexed(t, handles, starts, runs, next, e);
    InsertCounts(t, next, e);
  }

  class Registry {
    var entries: Table
    var handles: map<Uuid, nat>
    var starts: map<string, nat>
    var runs: map<string, nat>
    var pendingRunTerminations: map<string, Time>
    var nextSequence: nat
    var shuttingDown: bool
    const generation: Uuid
    const maxActive: nat
    const maxRetained: nat
    const retention: nat
    const runRetention: nat

    ghost predicate Valid()
      reads this`entries, this`handles, this`starts, this`runs, this`nextSequence
    {
      Consistent(entries, handles, starts, runs, nextSequence, maxActive, maxRetained)
    }

    constructor (generation: Uuid, maxActive: nat, maxRetained: nat, retention: nat, runRetention: nat)
      ensures Valid() && entries == map[] && nextSequence == 1 && !shuttingDown
    {
      entries, handles, starts, runs, pendingRunTerminations := map[], map[], map[], map[], map[];
      nextSequence, shuttingDown := 1, false;
      this.generation, this.maxActive, this.maxRetained := generation, maxActive, maxRetained;
      this.retention, this.runRetention := retention, runRetention;
    }

    /** Drop exactly the entries whose retention has ended, and their keys in every index. */
    method Cleanup(now: Time)
      requires Valid()
      modifies this`entries, this`handles, this`starts, this`runs, this`pendingRunTerminations
      ensures Valid()
      ensures entries == Retained(old(entries), now, retention, runRetention)
      ensures pendingRunTerminations == Waiting(old(pendingRunTerminations), now, runRetention)
      ensures handles.Keys <= old(handles).Keys
    {
      pendingRunTerminations := Waiting(pendingRunTerminations, now, runRetention);
      var expired := Gone(entries, now, retention, runRetention);
      RetainedIsTheRest(entries, now, retention, runRetention);
      RemoveAll(expired);
    }

    method RemoveAll(expired: set<nat>)
      requires Valid() && expired <= entries.Keys
      modifies this`entries, this`handles, this`starts, this`runs
      ensures Valid() && entries == old(entries) - expired
      ensures handles.Keys <= old(handles).Keys
    {
      ghost var kept := entries - expired;
      ghost var known := handles.Keys;
      var left := expired;
      while left != {}
        invariant Valid() && left <= entries.Keys
        invariant entries - left == kept && handles.Keys <= known
        decreases left
      {
        var sequence :| sequence in left;
        DropOneMore(entries, left, sequence);
        Remove(sequence);
        left := left - {sequence};
      }
      assert entries - {} == entries;
    }

    method Remove(sequence: nat)
      requires Valid() && sequence in entries
      modifies this`entries, this`handles, this`starts, this`runs
      ensures Valid() && entries == old(entries) - {sequence}
      ensures handles.Keys <= old(handles).Keys
    {
      var entry := entries[sequence];
      RemoveKeepsIndexed(entries, handles, starts, runs, sequence);
      ActiveShrinks(entries, entries - {sequence});
      entries := entries - {sequence};
      handles := handles - {entry.handle};
      starts := WithoutStart(starts, entry);
      runs := WithoutRun(runs, entry);
    }

    /** The admission block of `start_execution`. A known start_id returns the execution it
        started, or a conflict when the arguments differ, even while the runtime is shutting down or
        at capacity; only a new one is refused for that, or admitted under the next sequence, and
        nothing else changes. */
    method AdmitStart(request: StartRequest, id: Uuid, now: Time) returns (r: Result<(nat, bool), Error>)
      requires Valid() && id !in handles
      modifies this`entries, this`handles, this`starts, this`runs, this`nextSequence, this`pendingRunTerminations
      ensures Valid()
      ensures var kept := Retained(old(entries), now, retention, runRetention);
              match r
              case Ok((s, retry)) =>
                if retry then
                  && s in kept && kept[s].startRequest == Some(request)
                  && entries == kept && nextSequence == old(nextSequence)
                else
                  && s == old(nextSequence) && nextSequence == s + 1 && !shuttingDown
                  && entries == kept[s := Entry(Some(request), None, id, request.labels, Starting, None)]
                  && NoStart(kept, request.startId)
              case Err(e) =>
                && entries == kept && nextSequence == old(nextSequence)
                && Refused(e, kept, shuttingDown)
                && (e != IdempotencyConflict ==> NoStart(kept, request.startId))
      ensures var kept := Retained(old(entries), now, retention, runRetention);
              && (StartKnown(kept, request) <==> r.Ok? && r.value.1)
              && (StartConflict(kept, request) <==> r == Err(IdempotencyConflict))
      ensures pendingRunTerminations == Waiting(old(pendingRunTerminations), now, runRetention)
    {
      Cleanup(now);
      StartDecides(entries, handles, starts, runs, request);
      if request.startId in starts {
        var sequence := starts[request.startId];
        if entries[sequence].startRequest != Some(request) {
          return Err(IdempotencyConflict);
        }
        return Ok((sequence, true));
      }
      var refused := Refusal();
      if refused.Some? {
        return Err(refused.value);
      }
      var sequence := Insert(Entry(Some(request), None, id, request.labels, Starting, None));
      return Ok((sequence, false));
    }

    ghost predicate Refused(e: Error, kept: Table, closing: bool) {
      match e
      case IdempotencyConflict => true
      case Unavailable => closing
      case ResourceLimit => !closing && (|ActiveSet(kept)| >= maxActive || |kept| >= maxRetained)
      case _ => false
    }

    /** The admission block of `run_execution`, after expiry. A termination that arrived first
        is consumed by the run it names, whose session is then finished instead of started. */
    method AdmitRun(request: RunRequest, id: Uuid, now: Time, spoolCreated: bool)
      returns (r: Result<(nat, bool, bool), Error>)
      requires Valid() && id !in handles
      modifies this`entries, this`handles, this`starts, this`runs, this`nextSequence, this`pendingRunTerminations
      ensures Valid()
      ensures var kept := Retained(old(entries), now, retention, runRetention);
              var waiting := Waiting(old(pendingRunTerminations), now, runRetention);
              && RunAdmission(request, id, spoolCreated, kept, waiting, old(nextSequence), r)
              && RunRecognized(request, kept, r)
    {
      Cleanup(now);
      r := AdmitRunNow(request, id, spoolCreated);
    }

    ghost predicate RunAdmission(
      request: RunRequest, id: Uuid, spoolCreated: bool, kept: Table, waiting: map<string, Time>,
      next: nat, r: Result<(nat, bool, bool), Error>)
      reads this
    {
      match r
      case Ok((s, retry, cancelled)) =>
        if retry then
          && s in kept && kept[s].runRequest == Some(request) && !cancelled
          && entries == kept && nextSequence == next && pendingRunTerminations == waiting
        else
          && s == next && nextSequence == s + 1 && !shuttingDown
          && entries == kept[s := Entry(None, Some(request), id, request.labels, Starting, None)]
          && NoRun(kept, request.runId)
          && (cancelled <==> request.runId in waiting)
          && pendingRunTerminations == waiting - {request.runId}
      case Err(e) =>
        && entries == kept && nextSequence == next && pendingRunTerminations == waiting
        && (Refused(e, kept, shuttingDown) || (e == Io && !spoolCreated))
        && (e != IdempotencyConflict ==> NoRun(kept, request.runId))
    }

    // A known run is a retry or a conflict, whatever the state of the runtime.
    ghost predicate RunRecognized(request: RunRequest, kept: Table, r: Result<(nat, bool, bool), Error>) {
      && (RunKnown(kept, request) <==> r.Ok? && r.value.1)
      && (RunConflict(kept, request) <==> r == Err(IdempotencyConflict))
    }

    method AdmitRunNow(request: RunRequest, id: Uuid, spoolCreated: bool)
      returns (r: Result<(nat, bool, bool), Error>)
      requires Valid() && id !in handles
      modifies this`entries, this`handles, this`starts, this`runs, this`nextSequence, this`pendingRunTerminations
      ensures Valid()
              && RunAdmission(request, id, spoolCreated, old(entries), old(pendingRunTerminations), old(nextSequence),
                              r)
      ensures RunRecognized(request, old(entries), r)
    {
      RunDecides(entries, handles, starts, runs, request);
      if request.runId in runs {
        var sequence := runs[request.runId];
        if entries[sequence].runRequest != Some(request) {
          return Err(IdempotencyConflict);
        }
        return Ok((sequence, true, false));
      }
      r := AdmitNewRun(request, id, spoolCreated);
    }

    method AdmitNewRun(request: RunRequest, id: Uuid, spoolCreated: bool)
      returns (r: Result<(nat, bool, bool), Error>)
      requires Valid() && id !in handles && request.runId !in runs && NoRun(entries, request.runId)
      modifies this`entries, this`handles, this`starts, this`runs, this`nextSequence, this`pendingRunTerminations
      ensures Valid()
              && RunAdmission(request, id, spoolCreated, old(entries), old(pendingRunTerminations), old(nextSequence),
                              r)
      ensures r != Err(IdempotencyConflict) && (r.Ok? ==> !r.value.1)
    {
      var refused := RunRefusal(spoolCreated);
      if refused.Some? {
        return Err(refused.value);
      }
      var sequence, cancelled := EnrollRun(request, id);
      return Ok((sequence, false, cancelled));
    }

    method RunRefusal(spoolCreated: bool) returns (e: Option<Error>)
      ensures e.Some? ==> e.value != IdempotencyConflict
      ensures e.Some? ==> Refused(e.value, entries, shuttingDown) || (e.value == Io && !spoolCreated)
      ensures e.None? ==> !shuttingDown && |ActiveSet(entries)| < maxActive && |entries| < maxRetained
    {
      e := Refusal();
      if e.None? && !spoolCreated {
        e := Some(Io);
      }
    }

    method EnrollRun(request: RunRequest, id: Uuid) returns (sequence: nat, cancelled: bool)
      requires Valid() && id !in handles && request.runId !in runs
      requires |ActiveSet(entries)| < maxActive && |entries| < maxRetained
      modifies this`entries, this`handles, this`starts, this`runs, this`nextSequence, this`pendingRunTerminations
      ensures Valid() && sequence == old(nextSequence) && nextSequence == sequence + 1
      ensures entries == old(entries)[sequence := Entry(None, Some(request), id, request.labels, Starting, None)]
      ensures cancelled == (request.runId in old(pendingRunTerminations))
      ensures pendingRunTerminations == old(pendingRunTerminations) - {request.runId}
    {
      sequence := Insert(Entry(None, Some(request), id, request.labels, Starting, None));
      cancelled := request.runId in pendingRunTerminations;
      pendingRunTerminations := pendingRunTerminations - {request.runId};
    }

    method Refusal() returns (e: Option<Error>)
      ensures e == if shuttingDown then Some(Unavailable)
                   else if |ActiveSet(entries)| >= maxActive || |entries| >= maxRetained then Some(ResourceLimit)
                   else None
    {
      if shuttingDown {
        return Some(Unavailable);
      }
      var active := |ActiveSet(entries)|;
      if active >= maxActive || |entries| >= maxRetained {
        return Some(ResourceLimit);
      }
      return None;
    }

    method Insert(entry: Entry) returns (sequence: nat)
      requires Valid() && EntryOk(entry) && entry.state != Finished
      requires entry.handle !in handles
      requires entry.startRequest.Some? ==> entry.startRequest.value.startId !in starts
      requires entry.runRequest.Some? ==> entry.runRequest.value.runId !in runs
      requires |ActiveSet(entries)| < maxActive && |entries| < maxRetained
      modifies this`entries, this`handles, this`starts, this`runs, this`nextSequence
      ensures Valid() && sequence == old(nextSequence) && nextSequence == sequence + 1
      ensures entries == old(entries)[sequence := entry]
    {
      InsertKeepsConsistent(entries, handles, starts, runs, nextSequence, entry, maxActive, maxRetained);
      sequence := nextSequence;
      nextSequence := nextSequence + 1;
      handles := handles[entry.handle := sequence];
      starts := WithStart(starts, entry, sequence);
      runs := WithRun(runs, entry, sequence);
      entries := entries[sequence := entry];
    }

    // What a session does to its own entry while it is listed: it moves forward, and only the
    // end of the execution sets its finish time.
    method SessionMoves(sequence: nat, state: State, now: Time)
      requires Valid() && sequence in entries && entries[sequence].state != Finished
      modifies this`entries
      ensures Valid()
      ensures entries == old(entries)[sequence := old(entries)[sequence].(
                state := state, finishedAt := if state == Finished then Some(now) else None)]
    {
      var finishedAt := if state == Finished then Some(now) else None;
      var entry := entries[sequence].(state := state, finishedAt := finishedAt);
      assert EntryIndexed(sequence, entries[sequence], handles, starts, runs);
      MoveKeepsIndexed(entries, handles, starts, runs, sequence, entry);
      ActiveShrinks(entries, entries[sequence := entry]);
      entries := entries[sequence := entry];
    }

    // Where a page starts, and the bound of the snapshot it belongs to.
    method PageRange(filter: Filter, cursor: Option<PageCursor>) returns (r: Result<(nat, nat), Error>)
      requires nextSequence > 0
      ensures r.Err? <==>
              cursor.Some? && (cursor.value.generation != generation || cursor.value.filter != filter
                               || cursor.value.after > cursor.value.through || cursor.value.through >= nextSequence)
      ensures r.Ok? ==>
                r.value == if cursor.Some? then (cursor.value.after, cursor.value.through) else (0, nextSequence - 1)
      ensures r.Ok? ==> r.value.0 <= r.value.1 < nextSequence
    {
      var after, through := 0, nextSequence - 1;
      if cursor.Some? {
        if cursor.value.generation != generation {
          return Err(GenerationMismatch);
        }
        if cursor.value.filter != filter {
          return Err(InvalidArgument);
        }
        after, through := cursor.value.after, cursor.value.through;
      }
      if after > through || through >= nextSequence {
        return Err(InvalidArgument);
      }
      return Ok((after, through));
    }

    /** `list_executions`: the page is the scan of the table after expiry, cut at the cursor's
        snapshot bound, and its own cursor continues after the last execution it returned. */
    method ListExecutions(filter: Filter, limit: nat, cursor: Option<PageCursor>, now: Time)
      returns (r: Result<ExecutionPage, Error>, ghost page: Page)
      requires Valid()
      modifies this`entries, this`handles, this`starts, this`runs, this`pendingRunTerminations
      ensures Valid()
      ensures r.Err? <==>
              || limit == 0
              || (cursor.Some? && (cursor.value.generation != generation || cursor.value.filter != filter
                                   || cursor.value.after > cursor.value.through
                                   || cursor.value.through >= nextSequence))
      ensures r.Ok? ==>
                var after := if cursor.Some? then cursor.value.after else 0;
                var through := if cursor.Some? then cursor.value.through else nextSequence - 1;
                && entries == Retained(old(entries), now, retention, runRetention)
                && PageIs(entries, generation, filter, limit, after, through, r.value, page)
    {
      page := Page([], false);
      if limit == 0 {
        return Err(InvalidArgument), page;
      }
      Cleanup(now);
      r, page := CurrentPage(filter, limit, cursor);
    }

    // The page of the entries that are left.
    method CurrentPage(filter: Filter, limit: nat, cursor: Option<PageCursor>)
      returns (r: Result<ExecutionPage, Error>, ghost page: Page)
      requires Valid() && limit > 0
      ensures r.Err? <==>
              cursor.Some? && (cursor.value.generation != generation || cursor.value.filter != filter
                               || cursor.value.after > cursor.value.through || cursor.value.through >= nextSequence)
      ensures r.Ok? ==>
                var after := if cursor.Some? then cursor.value.after else 0;
                var through := if cursor.Some? then cursor.value.through else nextSequence - 1;
                PageIs(entries, generation, filter, limit, after, through, r.value, page)
    {
      page := Page([], false);
      var range := PageRange(filter, cursor);
      if range.Err? {
        return Err(range.error), page;
      }
      var (after, through) := range.value;
      var executions, last, more;
      executions, last, more, page := CollectPage(entries, filter, after, through, limit);
      var next := if more then Some(PageCursor(generation, last, through, filter)) else None;
      return Ok(ExecutionPage(executions, next)), page;
    }
  }

  /** What anybody may do between two pages: admit starts and runs, move sessions on to their end,
      let entries expire, shut down. */
  method OthersAct(registry: Registry)
    requires registry.Valid()
    modifies registry
    ensures registry.Valid() && registry.nextSequence >= old(registry.nextSequence)
  {
    var turns: nat :| 0 <= turns;
    for turn := 0 to turns
      invariant registry.Valid() && registry.nextSequence >= old(registry.nextSequence)
    {
      OneActs(registry);
    }
  }

  method OneActs(registry: Registry)
    requires registry.Valid()
    modifies registry
    ensures registry.Valid() && registry.nextSequence >= old(registry.nextSequence)
  {
    var now: Time, id: Uuid, sequence: nat := *, *, *;
    if * {
      var request: StartRequest := *;
      if id !in registry.handles {
        var admitted := registry.AdmitStart(request, id, now);
      }
    } else if * {
      var request: RunRequest, spoolCreated: bool := *, *;
      if id !in registry.handles {
        var admitted := registry.AdmitRun(request, id, now, spoolCreated);
      }
    } else if * {
      var state: State := *;
      if sequence in registry.entries && registry.entries[sequence].state != Finished {
        registry.SessionMoves(sequence, state, now);
      }
    } else if * {
      registry.Cleanup(now);
    } else {
      registry.shuttingDown := true;
    }
  }

  // A request with no cursor, or with that of the page before, which ended at `after`.
  ghost predicate Continues(cursor: Option<PageCursor>, generation: Uuid, filter: Filter, after: nat, through: nat) {
    && after <= through
    && if cursor.None? then after == 0 else cursor.value == PageCursor(generation, after, through, filter)
  }

  // The cursor of a page: none for the last one, or one that leads on from its end.
  ghost predicate Leads(
    next: Option<PageCursor>, generation: Uuid, filter: Filter, after: nat, through: nat, page: Page)
  {
    && page.more == next.Some?
    && (page.more ==>
          after < LastOf(page.keys, after) && Continues(next, generation, filter, LastOf(page.keys, after), through))
  }

  // Nothing asked for yet, and the table ends at `through`, or a cursor below the next sequence.
  predicate InRange(cursor: Option<PageCursor>, nextSequence: nat, through: nat) {
    if cursor.None? then nextSequence - 1 == through else nextSequence > through
  }

  // What a client gets for a request: a page of the table as it is then, and its cursor.
  ghost predicate Returned(
    generation: Uuid, filter: Filter, after: nat, through: nat, shown: seq<Snapshot>, next: Option<PageCursor>,
    visit: Visit)
  {
    && visit.limit > 0 && visit.page == Scan(visit.table, filter, after + 1, through, visit.limit)
    && Shown(visit.table, visit.page.keys, shown) && Leads(next, generation, filter, after, through, visit.page)
  }

  lemma PageReturned(
    t: Table, generation: Uuid, filter: Filter, limit: nat, after: nat, through: nat, p: ExecutionPage, page: Page)
    requires limit > 0 && PageIs(t, generation, filter, limit, after, through, p, page)
    ensures Returned(generation, filter, after, through, p.executions, p.next, Visit(t, limit, page))
  {
    MoreAdvances(t, filter, after, through, limit);
  }

  // One request for a page, of any size, at any time.
  method TakePage(registry: Registry, filter: Filter, cursor: Option<PageCursor>, ghost after: nat, through: nat)
    returns (shown: seq<Snapshot>, next: Option<PageCursor>, ghost visit: Visit)
    requires registry.Valid() && Continues(cursor, registry.generation, filter, after, through)
    requires InRange(cursor, registry.nextSequence, through)
    modifies registry
    ensures registry.Valid() && registry.nextSequence == old(registry.nextSequence)
    ensures Returned(registry.generation, filter, after, through, shown, next, visit)
  {
    var size: nat :| size > 0;
    var now: Time :| 0 <= now;
    var r;
    ghost var page;
    r, page := registry.ListExecutions(filter, size, cursor, now);
    shown, next, visit := r.value.executions, r.value.next, Visit(registry.entries, size, page);
    PageReturned(registry.entries, registry.generation, filter, size, after, through, r.value, page);
  }

  // The request, and what others do after it.
  method TakeTurn(registry: Registry, filter: Filter, cursor: Option<PageCursor>, ghost after: nat, through: nat)
    returns (shown: seq<Snapshot>, next: Option<PageCursor>, ghost visit: Visit)
    requires registry.Valid() && Continues(cursor, registry.generation, filter, after, through)
    requires InRange(cursor, registry.nextSequence, through)
    modifies registry
    ensures registry.Valid() && (next.Some? ==> InRange(next, registry.nextSequence, through))
    ensures Returned(registry.generation, filter, after, through, shown, next, visit)
  {
    shown, next, visit := TakePage(registry, filter, cursor, after, through);
    OthersAct(registry);
  }

  // Each page shows the entries of its table.
  ghost predicate ShownAll(w: Walk, pages: seq<seq<Snapshot>>) {
    && |pages| == |w|
    && (w == [] || (ShownAll(Before(w), pages[..|w| - 1])
                    && Shown(Latest(w).table, Latest(w).page.keys, pages[|w| - 1])))
  }

  // A client on its way: its pages so far, and the cursor of the latest.
  ghost predicate OnTheWay(
    w: Walk, pages: seq<seq<Snapshot>>, cursor: Option<PageCursor>, generation: Uuid, f: Filter, through: nat)
  {
    Underway(w, f, through) && ShownAll(w, pages) && Continues(cursor, generation, f, After(w), through)
  }

  // A client that has come to a last page.
  ghost predicate Arrived(w: Walk, pages: seq<seq<Snapshot>>, f: Filter, through: nat) {
    Follows(w, f, through) && !Latest(w).page.more && ShownAll(w, pages)
  }

  lemma OneMorePage(
    w: Walk, pages: seq<seq<Snapshot>>, generation: Uuid, f: Filter, through: nat, v: Visit, shown: seq<Snapshot>,
    next: Option<PageCursor>)
    requires Underway(w, f, through) && ShownAll(w, pages)
    requires Returned(generation, f, After(w), through, shown, next, v)
    ensures next.None? ==> Arrived(w + [v], pages + [shown], f, through)
    ensures next.Some? ==>
              OnTheWay(w + [v], pages + [shown], next, generation, f, through) && After(w) < After(w + [v]) <= through
  {
    assert Before(w + [v]) == w && Latest(w + [v]) == v && (pages + [shown])[..|w|] == pages;
  }

  /** A client that follows the cursors, with any page sizes, while others act between its requests:
      it is never refused, it comes to a last page, and its pages are those of
      `Listing.PagesCoverTheSnapshot`. */
  method FollowCursors(registry: Registry, filter: Filter) returns (pages: seq<seq<Snapshot>>, ghost walk: Walk)
    requires registry.Valid()
    modifies registry
    ensures Arrived(walk, pages, filter, old(registry.nextSequence) - 1)
  {
    pages, walk := [], [];
    var cursor: Option<PageCursor> := None;
    var through := registry.nextSequence - 1;
    while true
      invariant registry.Valid() && OnTheWay(walk, pages, cursor, registry.generation, filter, through)
      invariant InRange(cursor, registry.nextSequence, through)
      decreases through - After(walk)
    {
      var shown;
      ghost var visit;
      shown, cursor, visit := TakeTurn(registry, filter, cursor, After(walk), through);
      OneMorePage(walk, pages, registry.generation, filter, through, visit, shown, cursor);
      walk, pages := walk + [visit], pages + [shown];
      if cursor.None? {
        return;
      }
    }
  }

  // A page is the scan of the table, shown, with a cursor that continues after its last execution.
  ghost predicate PageIs(
    t: Table, generation: Uuid, filter: Filter, limit: nat, after: nat, through: nat, p: ExecutionPage, page: Page)
  {
    && page == Scan(t, filter, after + 1, through, limit) && Shown(t, page.keys, p.executions)
    && p.next == if page.more then Some(PageCursor(generation, LastOf(page.keys, after), through, filter)) else None
  }

  ghost predicate Shown(t: Table, keys: seq<nat>, executions: seq<Snapshot>) {
    |executions| == |keys| && forall i :: 0 <= i < |keys| ==> keys[i] in t && executions[i] == Show(t[keys[i]])
  }

  // The loop over the entries in (after, through], in sequence order.
  method CollectPage(t: Table, filter: Filter, after: nat, through: nat, limit: nat)
    returns (executions: seq<Snapshot>, last: nat, more: bool, ghost page: Page)
    requires after <= through
    ensures page == Scan(t, filter, after + 1, through, limit)
    ensures Shown(t, page.keys, executions) && last == LastOf(page.keys, after) && more == page.more
  {
    executions, last, more := [], after, false;
    page := Scan(t, filter, after + 1, through, limit);
    ghost var keys: seq<nat> := [];
    ghost var rest := page;
    var sequence := after + 1;
    while sequence <= through
      invariant after < sequence <= through + 1
      invariant !more && |keys| <= limit && Shown(t, keys, executions) && last == LastOf(keys, after)
      invariant rest == Scan(t, filter, sequence, through, limit - |keys|)
      invariant page.keys == keys + rest.keys && page.more == rest.more
    {
      if sequence in t && Matches(filter, t[sequence]) {
        if |executions| == limit {
          more := true;
          break;
        }
        last := sequence;
        executions := executions + [Show(t[sequence])];
        rest := Scan(t, filter, sequence + 1, through, limit - |keys| - 1);
        assert keys + ([sequence] + rest.keys) == keys + [sequence] + rest.keys;
        keys := keys + [sequence];
      }
      sequence := sequence + 1;
    }
    assert page.keys == keys;
  }

  lemma InsertCounts(t: Table, s: nat, e: Entry)
    requires s !in t && e.state != Finished
    ensures |t[s := e]| == |t| + 1 && |ActiveSet(t[s := e])| == |ActiveSet(t)| + 1
  {
    var after := t[s := e];
    assert after.Keys == t.Keys + {s};
    OneMore(t.Keys, s);
    assert |after| == |after.Keys| && |t| == |t.Keys|;
    ActiveAfterInsert(t, s, e);
    OneMore(ActiveSet(t), s);
  }

  lemma ActiveAfterInsert(t: Table, s: nat, e: Entry)
    requires s !in t && e.state != Finished
    ensures ActiveSet(t[s := e]) == ActiveSet(t) + {s} && s !in ActiveSet(t)
  {
  }

  lemma OneMore(a: set<nat>, x: nat)
    requires x !in a
    ensures |a + {x}| == |a| + 1
  {
  }

  lemma DropOneMore(t: Table, expired: set<nat>, s: nat)
    requires s in expired
    ensures t - {s} - (expired - {s}) == t - expired
  {
  }

  lemma RetainedIsTheRest(t: Table, now: Time, retention: nat, runRetention: nat)
    ensures Gone(t, now, retention, runRetention) <= t.Keys
    ensures t - Gone(t, now, retention, runRetention) == Retained(t, now, retention, runRetention)
  {
  }

  lemma SubmapSize<K, V>(a: map<K, V>, b: map<K, V>)
    requires a.Keys <= b.Keys
    ensures |a| <= |b|
  {
    assert b.Keys == a.Keys + (b.Keys - a.Keys);
    assert |a| == |a.Keys| && |b| == |b.Keys|;
  }
}
