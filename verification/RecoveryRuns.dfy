/** Request recovery over whole runs: any interleaving of dispatches, responses, losses,
    disconnects, restarts of the gateway and of the daemon, revocations and expiries. */
module RecoveryRuns {
  import Receipts
  import opened Recovery
  import opened RecoverySafety
  import opened Wrappers

  lemma InitialInv(s: State)
    requires Initial(s)
    ensures Inv(s)
  {
    assert Receipts.Pending(map[]) == {};
    assert InFlight(map[]) == {} && Ordinary(map[]) == {};
  }

  lemma {:induction false} RunKeepsInv(s: State, actions: seq<Action>)
    requires Inv(s)
    ensures Inv(Run(s, actions))
    decreases |actions|
  {
    if actions != [] {
      StepKeepsInv(s, actions[0]);
      RunKeepsInv(Step(s, actions[0]), actions[1..]);
    }
  }

  lemma {:induction false} RunConcat(s: State, a: seq<Action>, b: seq<Action>)
    ensures Run(s, a + b) == Run(Run(s, a), b)
    decreases |a|
  {
    if a == [] {
      assert a + b == b;
    } else {
      assert (a + b)[0] == a[0] && (a + b)[1..] == a[1..] + b;
      RunConcat(Step(s, a[0]), a[1..], b);
    }
  }

  /** At most once: whatever is lost or restarted, a job's request reaches the dispatcher at most
      once. */
  lemma AtMostOnce(s: State, actions: seq<Action>, id: Id)
    requires Initial(s)
    ensures Run(s, actions).ran[id] <= 1
  {
    InitialInv(s);
    RunKeepsInv(s, actions);
    var t := Run(s, actions);
    assert RunOk(t.rows.jobs, t.ran, Asked(t.toDaemon), t.daemon.generation, id);
  }

  /** Every stored response is one the daemon made for that job in the generation it is pinned to. */
  lemma ResponsesAreGenuine(s: State, actions: seq<Action>, id: Id)
    requires Initial(s) && id in Run(s, actions).rows.jobs && Run(s, actions).rows.jobs[id].response.Some?
    ensures var t := Run(s, actions);
            var j := t.rows.jobs[id];
            && (j.status.Succeeded? || j.status.Failed? || j.status.Unknown?)
            && j.generation.Some? && Product(j.generation.value, id, j.response.value) in t.produced
  {
    InitialInv(s);
    RunKeepsInv(s, actions);
    var t := Run(s, actions);
    assert RowOk(t.rows.jobs[id], t.next) && ResultOk(t.rows.jobs[id], id, t.ran, Asked(t.toDaemon), t.produced);
  }

  /** What the gateway records as accepted was carried out, once. */
  lemma AcceptedWasRun(s: State, actions: seq<Action>, id: Id)
    requires Initial(s) && id in Run(s, actions).rows.jobs && Run(s, actions).rows.jobs[id].status.Waiting?
    ensures Run(s, actions).ran[id] == 1
  {
    InitialInv(s);
    RunKeepsInv(s, actions);
    var t := Run(s, actions);
    assert ResultOk(t.rows.jobs[id], id, t.ran, Asked(t.toDaemon), t.produced);
  }

  /** No accepted request is lost: while the daemon lives that has carried it out, an unsettled job
      still has its receipt there, and so has every job that the gateway records as accepted. */
  lemma AcceptedIsHeld(s: State, actions: seq<Action>, id: Id)
    requires Initial(s)
    requires var t := Run(s, actions);
             && Pinned(t.rows.jobs, id, t.daemon.generation) && !t.rows.jobs[id].Terminal()
             && (t.ran[id] > 0 || t.rows.jobs[id].status.Waiting?)
    ensures id in Run(s, actions).daemon.receipts.table
  {
    InitialInv(s);
    RunKeepsInv(s, actions);
    AtMostOnce(s, actions, id);
    if Run(s, actions).rows.jobs[id].status.Waiting? {
      AcceptedWasRun(s, actions, id);
    }
  }

  /** So asking the daemon to recover it is answered with its acceptance or its response. */
  lemma RecoverIsAnswered(s: State, actions: seq<Action>, id: Id, generation: nat)
    requires Initial(s)
    requires var t := Run(s, actions);
             && t.toDaemon != [] && t.toDaemon[0] == ToDaemon.Recover(id, generation)
             && t.ran[id] > 0 && (id in t.rows.jobs ==> !t.rows.jobs[id].Terminal())
    ensures var t := Run(s, actions);
            var answer := ReceiptMessage(t.daemon, id, generation);
            answer == ToGateway.Accepted(id, generation)
            || (answer.Response? && answer.id == id && Product(generation, id, answer.text) in t.produced)
  {
    InitialInv(s);
    RunKeepsInv(s, actions);
    var t := Run(s, actions);
    assert t.toDaemon[0] in t.toDaemon
           && DownMessage(t.rows.jobs, Asked(t.toDaemon), t.daemon.generation, t.toDaemon[0]);
    AcceptedIsHeld(s, actions, id);
  }

  /** In every reachable state at most 32 ordinary jobs and at most 36 in all are in flight, and a
      session that takes part in the protocol is waiting for each of them. */
  lemma InFlightIsBounded(s: State, actions: seq<Action>)
    requires Initial(s)
    ensures var t := Run(s, actions);
            && |Ordinary(t.rows.jobs)| <= 32 && |InFlight(t.rows.jobs)| <= 36
            && (t.gateway.Ready() ==> InFlight(t.rows.jobs) <= t.gateway.pending)
  {
    InitialInv(s);
    RunKeepsInv(s, actions);
  }

  // The outbox rows of a job.
  ghost function EventsOf(outbox: multiset<Event>, id: Id): set<Event> {
    set e | e in outbox && e.id == id
  }

  /** Every job settled under a callback has exactly one outbox row, with its result; any other
      job has none. */
  lemma OutboxOnce(s: State, actions: seq<Action>, id: Id)
    requires Initial(s) && id in Run(s, actions).rows.jobs
    ensures var d := Run(s, actions).rows;
            var j := d.jobs[id];
            if j.Terminal() && j.hooked then EventsOf(d.outbox, id) == {EventOf(id, j)} && d.outbox[EventOf(id, j)] == 1
            else EventsOf(d.outbox, id) == {}
  {
    InitialInv(s);
    RunKeepsInv(s, actions);
  }

  // What may come of a row: a settled one stays as it is, a pinned generation stays, and from an
  // expired window there is no way but to be settled as unknown.
  predicate Later(now: nat, j: Job, k: Job) {
    && k.control == j.control && k.fingerprint == j.fingerprint && k.created == j.created
    && (j.Terminal() ==> k == j)
    && (j.generation.Some? ==> k.generation == j.generation)
    && (j.InFlight() && j.Expired(now) ==> (k.InFlight() && k.deadline == j.deadline) || k.status.Unknown?)
  }

  ghost predicate RowsLater(now: nat, jobs: Jobs, later: Jobs) {
    forall id :: id in jobs ==> id in later && Later(now, jobs[id], later[id])
  }

  lemma FinishLater(d: Rows, id: Id, o: Outcome, hook: bool, now: nat)
    requires id in d.jobs && d.jobs[id].InFlight() && d.jobs[id].Expired(now) ==> o.status.Unknown?
    ensures RowsLater(now, d.jobs, Finish(d, id, o, hook).jobs)
  {
  }

  lemma WindowsLater(jobs: Jobs, generation: Option<nat>, now: nat)
    ensures RowsLater(now, jobs, StartWindows(jobs, generation, now))
  {
  }

  lemma LaterTrans(now: nat, middle: nat, a: Jobs, b: Jobs, c: Jobs)
    requires RowsLater(now, a, b) && RowsLater(middle, b, c) && now <= middle
    ensures RowsLater(now, a, c)
  {
    forall id | id in a
      ensures id in c && Later(now, a[id], c[id])
    {
      assert Later(now, a[id], b[id]) && Later(middle, b[id], c[id]);
    }
  }

  lemma RespondLater(d: Rows, id: Id, text: Text, success: bool, now: nat, hook: bool)
    requires id in d.jobs
    ensures RowsLater(now, d.jobs, Respond(d, id, text, success, now, hook).jobs)
  {
    FinishLater(d, id, Lost(RecoveryUnavailable), hook, now);
  }

  lemma TwiceLater(jobs: Jobs, later: Jobs, generation: Option<nat>, now: nat)
    requires RowsLater(now, jobs, later)
    ensures RowsLater(now, jobs, StartWindows(later, generation, now))
  {
    WindowsLater(later, generation, now);
    LaterTrans(now, now, jobs, later, StartWindows(later, generation, now));
  }

  lemma TakesResponseLater(s: State, hook: bool, acknowledges: bool)
    requires s.toGateway != [] && s.toGateway[0].Response?
    ensures RowsLater(s.now, s.rows.jobs, GatewayTakes(s, hook, acknowledges).rows.jobs)
  {
    var g, m, jobs := s.gateway.generation, s.toGateway[0], s.rows.jobs;
    if m.generation != g || m.id !in jobs || jobs[m.id].generation != Some(g) {
      WindowsLater(jobs, Some(g), s.now);
    } else {
      var d := Respond(s.rows, m.id, m.text, m.text in s.successes, s.now, hook);
      RespondLater(s.rows, m.id, m.text, m.text in s.successes, s.now, hook);
      TwiceLater(jobs, d.jobs, Some(g), s.now);
      var after := GatewayTakes(s, hook, acknowledges).rows.jobs;
      assert after == if acknowledges then d.jobs else StartWindows(d.jobs, Some(g), s.now);
    }
  }

  lemma AcceptLater(jobs: Jobs, id: Id, generation: nat, now: nat)
    ensures RowsLater(now, jobs, Accept(jobs, id, generation, now))
  {
  }

  lemma GatewayTakesLater(s: State, hook: bool, acknowledges: bool)
    requires s.toGateway != []
    ensures RowsLater(s.now, s.rows.jobs, GatewayTakes(s, hook, acknowledges).rows.jobs)
  {
    var g, m, jobs := s.gateway.generation, s.toGateway[0], s.rows.jobs;
    if m.Response? {
      TakesResponseLater(s, hook, acknowledges);
    } else if m.generation != g {
      WindowsLater(jobs, Some(g), s.now);
    } else if m.Accepted? {
      AcceptLater(jobs, m.id, g, s.now);
    } else {
      FinishLater(s.rows, m.id, Lost(ReceiptMissing), hook, s.now);
    }
  }

  lemma DispatchLater(s: State, id: Id, arrives: bool)
    requires RowsOk(s.rows.jobs, s.next)
    ensures RowsLater(s.now, s.rows.jobs, Step(s, Dispatch(id, arrives)).rows.jobs)
  {
    if MayDispatch(s, id) {
      var jobs, g := Dispatched(s, id).rows.jobs, Some(s.gateway.generation);
      DispatchedLater(s, id);
      TwiceLater(s.rows.jobs, jobs, g, s.now);
      assert Step(s, Dispatch(id, arrives)).rows.jobs == if arrives then jobs else StartWindows(jobs, g, s.now);
    }
  }

  lemma DispatchedLater(s: State, id: Id)
    requires RowsOk(s.rows.jobs, s.next) && MayDispatch(s, id)
    ensures RowsLater(s.now, s.rows.jobs, Dispatched(s, id).rows.jobs)
  {
    assert RowOk(s.rows.jobs[id], s.next);
  }

  lemma HousekeepLater(s: State, id: Id, hook: bool)
    requires id in s.rows.jobs
    ensures RowsLater(s.now, s.rows.jobs, Housekept(s, id, hook).jobs)
  {
    if s.rows.jobs[id].status.Queued? {
      FinishLater(s.rows, id, Outcome(Failed, None, Some(DispatchTimeout)), hook, s.now);
    } else {
      FinishLater(s.rows, id, Lost(RecoveryUnavailable), hook, s.now);
    }
  }

  // The steps of a session that settle jobs or start their windows.
  lemma SessionLater(s: State, a: Action)
    requires a.SettleStale? || a.GatewayDrops? || a.GatewayRestarts? || a.RevokeOne? || a.RefuseDispatch?
    ensures s.now <= Step(s, a).now && RowsLater(s.now, s.rows.jobs, Step(s, a).rows.jobs)
  {
    match a
    case SettleStale(id, hook) =>
      if id in s.gateway.stale {
        FinishLater(s.rows, id, Lost(s.gateway.stale[id]), hook, s.now);
      }
    case GatewayDrops => WindowsLater(s.rows.jobs, Some(s.gateway.generation), s.now);
    case GatewayRestarts => WindowsLater(s.rows.jobs, None, s.now);
    case RevokeOne(id, hook) => FinishLater(s.rows, id, Lost(ConnectionLost), hook, s.now);
    case RefuseDispatch(id, hook) =>
      if id in s.rows.jobs && s.rows.jobs[id].status.Queued? {
        FinishLater(s.rows, id, Outcome(Failed, None, Some(DispatchRefused)), hook, s.now);
      }
  }

  lemma JobLater(s: State, a: Action)
    requires a.GatewayReceives? || a.Housekeep?
    ensures s.now <= Step(s, a).now && RowsLater(s.now, s.rows.jobs, Step(s, a).rows.jobs)
  {
    if a.Housekeep? {
      if a.id in s.rows.jobs {
        HousekeepLater(s, a.id, a.hook);
      }
    } else if s.toGateway != [] {
      GatewayTakesLater(s, a.hook, a.acknowledges);
    }
  }

  // Steps that leave the rows alone.
  lemma RowsKept(s: State, a: Action)
    requires !a.Submit? && !a.SettleStale? && !a.GatewayDrops? && !a.GatewayRestarts? && !a.RevokeOne?
             && !a.RefuseDispatch?
    requires !a.Dispatch? && !a.GatewayReceives? && !a.Housekeep?
    ensures s.now <= Step(s, a).now && Step(s, a).rows == s.rows
  {
  }

  lemma StepLater(s: State, a: Action)
    requires RowsOk(s.rows.jobs, s.next)
    ensures s.now <= Step(s, a).now && RowsLater(s.now, s.rows.jobs, Step(s, a).rows.jobs)
  {
    if a.SettleStale? || a.GatewayDrops? || a.GatewayRestarts? || a.RevokeOne? || a.RefuseDispatch? {
      SessionLater(s, a);
    } else if a.Dispatch? {
      DispatchLater(s, a.id, a.arrives);
    } else if a.GatewayReceives? || a.Housekeep? {
      JobLater(s, a);
    } else if !a.Submit? {
      RowsKept(s, a);
    }
  }

  lemma {:induction false} RunLater(s: State, actions: seq<Action>)
    requires Inv(s)
    ensures s.now <= Run(s, actions).now && RowsLater(s.now, s.rows.jobs, Run(s, actions).rows.jobs)
    decreases |actions|
  {
    if actions != [] {
      var t := Step(s, actions[0]);
      StepKeepsInv(s, actions[0]);
      StepLater(s, actions[0]);
      RunLater(t, actions[1..]);
      LaterTrans(s.now, t.now, s.rows.jobs, t.rows.jobs, Run(s, actions).rows.jobs);
    }
  }

  /** Between any two points of a run: a settled row never changes, a pinned generation never
      changes, and a job whose recovery window has expired stays in flight with it or is unknown. */
  lemma RowsOnlyMoveForward(s: State, before: seq<Action>, after: seq<Action>, id: Id)
    requires Initial(s) && id in Run(s, before).rows.jobs
    ensures var t, u := Run(s, before), Run(s, before + after);
            id in u.rows.jobs && Later(t.now, t.rows.jobs[id], u.rows.jobs[id])
  {
    InitialInv(s);
    RunKeepsInv(s, before);
    RunConcat(s, before, after);
    RunLater(Run(s, before), after);
  }

  /** A job settled because its receipt is missing was never carried out, and never will be. */
  lemma MissingWasNeverRun(s: State, before: seq<Action>, after: seq<Action>, id: Id)
    requires Initial(s) && id in Run(s, before).rows.jobs && Run(s, before).rows.jobs[id].error == Some(ReceiptMissing)
    ensures Run(s, before + after).ran[id] == 0
  {
    RowsOnlyMoveForward(s, before, after, id);
    InitialInv(s);
    RunKeepsInv(s, before);
    RunKeepsInv(s, before + after);
    var t, u := Run(s, before), Run(s, before + after);
    assert RowOk(t.rows.jobs[id], t.next);
    assert ResultOk(u.rows.jobs[id], id, u.ran, Asked(u.toDaemon), u.produced);
  }

  // What the daemon keeps when it takes a message: its generation, and every receipt but one that
  // is acknowledged.
  lemma DaemonTakesDaemon(s: State, busy: bool, malformed: bool, text: Text, id: Id)
    requires s.toDaemon != []
    ensures var t := DaemonTakes(s, busy, malformed, text);
            && t.daemon.generation == s.daemon.generation
            && (id in s.daemon.receipts.table && id !in t.daemon.receipts.table ==>
                  s.toDaemon[0] == ToDaemon.Acknowledge(id, s.daemon.generation))
  {
  }

  // Any other step, but a restart, keeps both.
  lemma DaemonKept(s: State, a: Action, id: Id)
    requires !a.DaemonReceives? && !a.DaemonRestarts?
    ensures Step(s, a).daemon.generation == s.daemon.generation
    ensures id in s.daemon.receipts.table ==> id in Step(s, a).daemon.receipts.table
  {
    if a.GatewayReceives? {
      GatewayKeepsDaemon(s, a.hook, a.acknowledges);
    }
  }

  lemma GatewayKeepsDaemon(s: State, hook: bool, acknowledges: bool)
    ensures Step(s, GatewayReceives(hook, acknowledges)).daemon == s.daemon
  {
  }

  lemma StepReleases(s: State, a: Action, id: Id)
    requires LinksOk(s) && DownOk(s.rows.jobs, Asked(s.toDaemon), s.daemon.generation, s.toDaemon)
    requires id in s.daemon.receipts.table && id !in Step(s, a).daemon.receipts.table
    requires Step(s, a).daemon.generation == s.daemon.generation
    ensures id in s.rows.jobs && s.rows.jobs[id].Terminal()
  {
    if a.DaemonReceives? {
      if s.toDaemon != [] {
        DaemonTakesDaemon(s, a.busy, a.malformed, a.text, id);
        assert s.toDaemon[0] in s.toDaemon;
      }
    } else if !a.DaemonRestarts? {
      DaemonKept(s, a, id);
    }
  }

  lemma {:induction false} RunReleases(s: State, actions: seq<Action>, id: Id)
    requires Inv(s) && id in s.daemon.receipts.table
    requires Run(s, actions).daemon.generation == s.daemon.generation && id !in Run(s, actions).daemon.receipts.table
    ensures id in Run(s, actions).rows.jobs && Run(s, actions).rows.jobs[id].Terminal()
    decreases |actions|
  {
    var t := Step(s, actions[0]);
    StepKeepsInv(s, actions[0]);
    GenerationGrows(t, actions[1..]);
    GenerationStep(s, actions[0]);
    if id in t.daemon.receipts.table {
      RunReleases(t, actions[1..], id);
    } else {
      StepReleases(s, actions[0], id);
      StaysSettled(s, actions[0], actions[1..], id);
    }
  }

  lemma StaysSettled(s: State, a: Action, actions: seq<Action>, id: Id)
    requires Inv(s) && Inv(Step(s, a)) && id in s.rows.jobs && s.rows.jobs[id].Terminal()
    ensures var t := Run(Step(s, a), actions); id in t.rows.jobs && t.rows.jobs[id].Terminal()
  {
    var t := Step(s, a);
    StepLater(s, a);
    assert Later(s.now, s.rows.jobs[id], t.rows.jobs[id]);
    RunLater(t, actions);
    assert Later(t.now, t.rows.jobs[id], Run(t, actions).rows.jobs[id]);
  }

  lemma GenerationStep(s: State, a: Action)
    requires LinksOk(s)
    ensures s.daemon.generation <= Step(s, a).daemon.generation
  {
    if a.DaemonReceives? {
      if s.toDaemon != [] {
        DaemonTakesDaemon(s, a.busy, a.malformed, a.text, "");
      }
    } else if !a.DaemonRestarts? {
      DaemonKept(s, a, "");
    }
  }

  lemma {:induction false} GenerationGrows(s: State, actions: seq<Action>)
    requires Inv(s)
    ensures s.daemon.generation <= Run(s, actions).daemon.generation
    decreases |actions|
  {
    if actions != [] {
      StepKeepsInv(s, actions[0]);
      GenerationStep(s, actions[0]);
      GenerationGrows(Step(s, actions[0]), actions[1..]);
    }
  }

  /** A daemon gives up a receipt only after the job is settled. */
  lemma ReleasedOnlyWhenSettled(s: State, before: seq<Action>, after: seq<Action>, id: Id)
    requires Initial(s) && id in Run(s, before).daemon.receipts.table
    requires Run(s, before + after).daemon.generation == Run(s, before).daemon.generation
    requires id !in Run(s, before + after).daemon.receipts.table
    ensures id in Run(s, before + after).rows.jobs && Run(s, before + after).rows.jobs[id].Terminal()
  {
    InitialInv(s);
    RunKeepsInv(s, before);
    RunConcat(s, before, after);
    RunReleases(Run(s, before), after, id);
  }

  // A job in flight has a recovery window running, or a session waits for it.
  predicate JobTimed(j: Job, id: Id, now: nat, g: Gateway) {
    j.InFlight() ==>
      if j.deadline.Some? then j.deadline.value <= now + RECOVERY_WINDOW
      else g.up && g.stale == map[] && j.generation == Some(g.generation) && id in g.pending
  }

  ghost predicate Timed(jobs: Jobs, now: nat, g: Gateway) {
    forall id :: id in jobs ==> JobTimed(jobs[id], id, now, g)
  }

  lemma FinishTimed(d: Rows, id: Id, o: Outcome, hook: bool, now: nat, g: Gateway)
    requires Timed(d.jobs, now, g) && (o.status.Succeeded? || o.status.Failed? || o.status.Unknown?)
    ensures Timed(Finish(d, id, o, hook).jobs, now, g)
    ensures Timed(Finish(d, id, o, hook).jobs, now, g.(pending := g.pending - {id}))
  {
  }

  lemma EndedTimed(jobs: Jobs, now: nat, g: Gateway, generation: Option<nat>)
    requires Timed(jobs, now, g) && (generation.None? || generation == Some(g.generation))
    ensures Timed(StartWindows(jobs, generation, now), now, DOWN)
  {
    forall id | id in jobs
      ensures JobTimed(StartWindows(jobs, generation, now)[id], id, now, DOWN)
    {
      assert JobTimed(jobs[id], id, now, g);
    }
  }

  lemma GatewayTakesTimed(s: State, hook: bool, acknowledges: bool)
    requires s.toGateway != [] && Timed(s.rows.jobs, s.now, s.gateway) && s.gateway.Ready()
    ensures var t := GatewayTakes(s, hook, acknowledges); t.now == s.now && Timed(t.rows.jobs, t.now, t.gateway)
  {
    var g, m, jobs := s.gateway.generation, s.toGateway[0], s.rows.jobs;
    EndedTimed(jobs, s.now, s.gateway, Some(g));
    if m.Response? {
      if m.generation == g && m.id in jobs && jobs[m.id].generation == Some(g) {
        RespondTimed(s, m.id, m.text, hook);
        var after := s.gateway.(pending := s.gateway.pending - {m.id});
        EndedTimed(Respond(s.rows, m.id, m.text, m.text in s.successes, s.now, hook).jobs, s.now, after, Some(g));
      }
    } else if m.Accepted? {
      AcceptTimed(s, m.id);
    } else {
      FinishTimed(s.rows, m.id, Lost(ReceiptMissing), hook, s.now, s.gateway);
    }
  }

  lemma RespondTimed(s: State, id: Id, text: Text, hook: bool)
    requires Timed(s.rows.jobs, s.now, s.gateway) && id in s.rows.jobs
    ensures var d := Respond(s.rows, id, text, text in s.successes, s.now, hook);
            Timed(d.jobs, s.now, s.gateway.(pending := s.gateway.pending - {id}))
  {
    FinishTimed(s.rows, id, Lost(RecoveryUnavailable), hook, s.now, s.gateway);
    FinishTimed(s.rows, id, Outcome(if text in s.successes then Succeeded else Failed, Some(text), None), hook, s.now,
                s.gateway);
  }

  lemma AcceptTimed(s: State, id: Id)
    requires Timed(s.rows.jobs, s.now, s.gateway) && s.gateway.Ready()
    ensures id in s.gateway.pending ==> Timed(Accept(s.rows.jobs, id, s.gateway.generation, s.now), s.now, s.gateway)
  {
  }

  lemma DispatchTimed(s: State, id: Id, arrives: bool)
    requires Timed(s.rows.jobs, s.now, s.gateway) && RowsOk(s.rows.jobs, s.next)
    ensures var t := Step(s, Dispatch(id, arrives)); t.now == s.now && Timed(t.rows.jobs, t.now, t.gateway)
  {
    if MayDispatch(s, id) {
      var t := Dispatched(s, id);
      assert RowOk(s.rows.jobs[id], s.next);
      assert Timed(t.rows.jobs, t.now, t.gateway);
      EndedTimed(t.rows.jobs, t.now, t.gateway, Some(t.gateway.generation));
    }
  }

  lemma SessionTimed(s: State, a: Action)
    requires Timed(s.rows.jobs, s.now, s.gateway)
    requires a.GatewayDrops? || a.GatewayRestarts? || a.Revoke? || a.RevokeEnds? || a.Connect? || a.SendRecover?
    requires s.gateway.up || s.gateway == DOWN
    ensures var t := Step(s, a); t.now == s.now && Timed(t.rows.jobs, t.now, t.gateway)
  {
    EndedTimed(s.rows.jobs, s.now, s.gateway, Some(s.gateway.generation));
    EndedTimed(s.rows.jobs, s.now, s.gateway, None);
    forall id | id in s.rows.jobs
      ensures JobTimed(s.rows.jobs[id], id, s.now, Step(s, Revoke).gateway)
      ensures JobTimed(s.rows.jobs[id], id, s.now, Step(s, RevokeEnds).gateway)
      ensures JobTimed(s.rows.jobs[id], id, s.now, Step(s, Connect).gateway)
    {
      assert JobTimed(s.rows.jobs[id], id, s.now, s.gateway);
    }
  }

  lemma SettlingTimed(s: State, a: Action)
    requires Timed(s.rows.jobs, s.now, s.gateway)
    requires a.SettleStale? || a.RevokeOne? || a.RefuseDispatch? || a.Housekeep?
    ensures var t := Step(s, a); t.now == s.now && Timed(t.rows.jobs, t.now, t.gateway)
  {
    match a
    case SettleStale(id, hook) =>
      if s.gateway.up && !s.gateway.revoked && id in s.gateway.stale {
        FinishTimed(s.rows, id, Lost(s.gateway.stale[id]), hook, s.now, s.gateway);
      }
    case RevokeOne(id, hook) => FinishTimed(s.rows, id, Lost(ConnectionLost), hook, s.now, s.gateway);
    case RefuseDispatch(id, hook) =>
      FinishTimed(s.rows, id, Outcome(Failed, None, Some(DispatchRefused)), hook, s.now, s.gateway);
    case Housekeep(id, hook) =>
      FinishTimed(s.rows, id, Outcome(Failed, None, Some(DispatchTimeout)), hook, s.now, s.gateway);
      FinishTimed(s.rows, id, Lost(RecoveryUnavailable), hook, s.now, s.gateway);
  }

  // The other steps change neither the rows nor the session, or only add a queued job or time.
  lemma OtherTimed(s: State, a: Action)
    requires Timed(s.rows.jobs, s.now, s.gateway)
    requires a.Tick? || a.Submit? || a.RemoveMachine? || a.DaemonDrops? || a.DaemonRestarts? || a.LoseToDaemon?
             || a.LoseToGateway?
             || a.DaemonReceives? || a.Complete? || a.Resend?
    ensures var t := Step(s, a); Timed(t.rows.jobs, t.now, t.gateway)
  {
    if a.Tick? || a.Submit? || a.RemoveMachine? {
      RowsOrTime(s, a);
    } else {
      DaemonSide(s, a);
    }
    TimedLater(s.rows.jobs, Step(s, a).rows.jobs, s.now, Step(s, a).now, s.gateway);
  }

  lemma DaemonSide(s: State, a: Action)
    requires a.DaemonDrops? || a.DaemonRestarts? || a.LoseToDaemon? || a.LoseToGateway? || a.DaemonReceives?
             || a.Complete? || a.Resend?
    ensures var t := Step(s, a); t.gateway == s.gateway && t.now == s.now && t.rows == s.rows
  {
  }

  lemma RowsOrTime(s: State, a: Action)
    requires a.Tick? || a.Submit? || a.RemoveMachine?
    ensures var t := Step(s, a);
            && t.gateway == s.gateway && s.now <= t.now
            && (t.rows.jobs == s.rows.jobs
                || (a.Submit? && a.id in t.rows.jobs && t.rows.jobs[a.id].status.Queued?
                    && t.rows.jobs == s.rows.jobs[a.id := t.rows.jobs[a.id]]))
  {
  }

  // Time passes, and at most jobs that are not in flight are added.
  lemma TimedLater(jobs: Jobs, later: Jobs, now: nat, end: nat, g: Gateway)
    requires Timed(jobs, now, g) && now <= end
    requires later == jobs || exists id :: id in later && later[id].status.Queued? && later == jobs[id := later[id]]
    ensures Timed(later, end, g)
  {
    forall id | id in later
      ensures JobTimed(later[id], id, end, g)
    {
      assert id in jobs ==> JobTimed(jobs[id], id, now, g);
    }
  }

  lemma StepTimed(s: State, a: Action)
    requires Timed(s.rows.jobs, s.now, s.gateway) && (s.gateway.up || s.gateway == DOWN) && RowsOk(s.rows.jobs, s.next)
    ensures var t := Step(s, a); Timed(t.rows.jobs, t.now, t.gateway)
  {
    if a.GatewayDrops? || a.GatewayRestarts? || a.Revoke? || a.RevokeEnds? || a.Connect? || a.SendRecover? {
      SessionTimed(s, a);
    } else if a.SettleStale? || a.RevokeOne? || a.RefuseDispatch? || a.Housekeep? {
      SettlingTimed(s, a);
    } else if a.Dispatch? {
      DispatchTimed(s, a.id, a.arrives);
    } else if a.GatewayReceives? {
      if s.gateway.Ready() && s.toGateway != [] {
        GatewayTakesTimed(s, a.hook, a.acknowledges);
      }
    } else {
      OtherTimed(s, a);
    }
  }

  lemma {:induction false} RunTimed(s: State, actions: seq<Action>)
    requires Inv(s) && Timed(s.rows.jobs, s.now, s.gateway)
    ensures var t := Run(s, actions); Timed(t.rows.jobs, t.now, t.gateway)
    decreases |actions|
  {
    if actions != [] {
      StepKeepsInv(s, actions[0]);
      StepTimed(s, actions[0]);
      RunTimed(Step(s, actions[0]), actions[1..]);
    }
  }

  lemma WindowEnds(t: State, id: Id, hook: bool)
    requires id in t.rows.jobs && t.rows.jobs[id].InFlight()
    requires t.rows.jobs[id].deadline.Some? && t.rows.jobs[id].deadline.value <= t.now + RECOVERY_WINDOW
    ensures var u := Step(Step(t, Tick(RECOVERY_WINDOW)), Housekeep(id, hook));
            id in u.rows.jobs && u.rows.jobs[id].status.Unknown? && u.rows.jobs[id].error == Some(RecoveryUnavailable)
  {
    var v := Step(t, Tick(RECOVERY_WINDOW));
    assert v.rows == t.rows && v.rows.jobs[id].Expired(v.now);
    assert Step(v, Housekeep(id, hook)).rows == Finish(v.rows, id, Lost(RecoveryUnavailable), hook);
  }

  /** No job hangs: in every reachable state without a session, a job in flight has a recovery
      window of at most 24 hours running, and housekeeping after its end settles it as unknown. */
  lemma NoJobHangs(s: State, actions: seq<Action>, id: Id, hook: bool)
    requires Initial(s)
    requires var t := Run(s, actions); !t.gateway.up && id in t.rows.jobs && t.rows.jobs[id].InFlight()
    ensures var t := Run(s, actions);
            var u := Step(Step(t, Tick(RECOVERY_WINDOW)), Housekeep(id, hook));
            && t.rows.jobs[id].deadline.Some? && t.rows.jobs[id].deadline.value <= t.now + RECOVERY_WINDOW
            && id in u.rows.jobs && u.rows.jobs[id].status.Unknown?
            && u.rows.jobs[id].error == Some(RecoveryUnavailable)
  {
    InitialInv(s);
    RunTimed(s, actions);
    var t := Run(s, actions);
    assert JobTimed(t.rows.jobs[id], id, t.now, t.gateway);
    WindowEnds(t, id, hook);
  }

  // A job on its way to the daemon.
  lemma DispatchedFirst(s: State, id: Id)
    requires Initial(s)
    ensures var t := Step(Step(Step(s, Submit(id, false, 0)), Connect), Dispatch(id, true));
            && t.gateway == Gateway(true, false, s.daemon.generation, {id}, {}, map[])
            && t.rows.jobs
              == map[id := Job(Dispatching, Some(s.daemon.generation), None, None, None, s.now, false, 0, false)]
            && t.daemon == s.daemon.(up := true) && t.toDaemon == [ToDaemon.Request(id, 0)] && t.toGateway == []
            && t.now == s.now
            && t.successes == s.successes
  {
    var t := Step(s, Submit(id, false, 0));
    assert Resumed(t.rows.jobs, s.daemon.generation, s.now) == {};
    assert Abandoned(t.rows.jobs, s.daemon.generation, s.now) == map[];
  }

  lemma AcceptedFirst(t: State, id: Id)
    requires t.daemon.up && t.gateway.up && t.daemon.receipts == Receipts.Daemon(map[], {}) && t.daemon.sent == {}
    requires t.toDaemon == [ToDaemon.Request(id, 0)] && t.toGateway == []
    ensures var u := Step(t, DaemonReceives(false, false, []));
            && u.daemon == t.daemon.(receipts := Receipts.Daemon(map[id := Receipts.Receipt(0, None)], {id}))
            && u.toDaemon == [] && u.toGateway == [ToGateway.Accepted(id, t.daemon.generation)]
            && u.rows == t.rows && u.gateway == t.gateway && u.now == t.now && u.successes == t.successes
  {
    assert Receipts.Admitted(map[], id, 0, false).New?;
  }

  lemma AnsweredFirst(t: State, id: Id, text: Text)
    requires t.daemon.up && t.gateway.up && t.daemon.sent == {} && |text| <= Receipts.MAX_FRAME_BYTES
    requires t.daemon.receipts == Receipts.Daemon(map[id := Receipts.Receipt(0, None)], {id})
    ensures var u := Step(Step(t, Complete(id, text)), Resend(id));
            && u.toGateway == t.toGateway + [ToGateway.Response(id, t.daemon.generation, text)]
            && u.rows == t.rows && u.gateway == t.gateway && u.now == t.now && u.successes == t.successes
            && u.daemon.up && u.toDaemon == t.toDaemon
  {
  }

  lemma StoredFirst(t: State, id: Id, text: Text)
    requires t.gateway.Ready() && id in t.gateway.pending && t.daemon.up && text in t.successes
    requires Pinned(t.rows.jobs, id, t.gateway.generation) && t.rows.jobs[id].InFlight()
             && t.rows.jobs[id].deadline.None?
    requires t.toGateway
             == [ToGateway.Accepted(id, t.gateway.generation), ToGateway.Response(id, t.gateway.generation, text)]
    ensures var u := Step(Step(t, GatewayReceives(false, true)), GatewayReceives(false, true));
            && id in u.rows.jobs && u.rows.jobs[id].status == Succeeded && u.rows.jobs[id].response == Some(text)
            && ToDaemon.Acknowledge(id, t.gateway.generation) in u.toDaemon
  {
    var u := Step(t, GatewayReceives(false, true));
    assert u.toGateway == [ToGateway.Response(id, t.gateway.generation, text)];
    assert u.rows.jobs[id].InFlight() && u.rows.jobs[id].deadline.None?;
  }

  /** Runs get somewhere: when nothing is lost, a job's response is stored and acknowledged. */
  lemma ARunCompletes(s: State, id: Id, text: Text)
    requires Initial(s) && text in s.successes && |text| <= Receipts.MAX_FRAME_BYTES
    ensures exists actions :: Completed(Run(s, actions), id, s.daemon.generation, text)
  {
    EightRun(s, id, text);
  }

  function EightActions(id: Id, text: Text): seq<Action> {
    [Submit(id, false, 0), Connect, Dispatch(id, true), DaemonReceives(false, false, []), Complete(id, text),
     Resend(id), GatewayReceives(false, true), GatewayReceives(false, true)]
  }

  lemma EightRun(s: State, id: Id, text: Text)
    requires Initial(s) && text in s.successes && |text| <= Receipts.MAX_FRAME_BYTES
    ensures Completed(Run(s, EightActions(id, text)), id, s.daemon.generation, text)
  {
    RunEight(s, EightActions(id, text));
    EightComplete(s, id, text);
  }

  lemma EightComplete(s: State, id: Id, text: Text)
    requires Initial(s) && text in s.successes && |text| <= Receipts.MAX_FRAME_BYTES
    ensures var t := Step(Step(Step(s, Submit(id, false, 0)), Connect), Dispatch(id, true));
            var u := Step(Step(Step(t, DaemonReceives(false, false, [])), Complete(id, text)), Resend(id));
            Completed(Step(Step(u, GatewayReceives(false, true)), GatewayReceives(false, true)), id,
                      s.daemon.generation, text)
  {
    DispatchedFirst(s, id);
    var t := Step(Step(Step(s, Submit(id, false, 0)), Connect), Dispatch(id, true));
    FiveComplete(t, id, text);
  }

  lemma FiveComplete(t: State, id: Id, text: Text)
    requires t.gateway == Gateway(true, false, t.daemon.generation, {id}, {}, map[]) && text in t.successes
    requires t.rows.jobs
             == map[id := Job(Dispatching, Some(t.daemon.generation), None, None, None, t.now, false, 0, false)]
    requires t.daemon.up && t.daemon.receipts == Receipts.Daemon(map[], {}) && t.daemon.sent == {}
    requires t.toDaemon == [ToDaemon.Request(id, 0)] && t.toGateway == [] && |text| <= Receipts.MAX_FRAME_BYTES
    ensures var u := Step(Step(Step(t, DaemonReceives(false, false, [])), Complete(id, text)), Resend(id));
            Completed(Step(Step(u, GatewayReceives(false, true)), GatewayReceives(false, true)), id,
                      t.daemon.generation, text)
  {
    AcceptedFirst(t, id);
    var u := Step(t, DaemonReceives(false, false, []));
    AnsweredFirst(u, id, text);
    StoredFirst(Step(Step(u, Complete(id, text)), Resend(id)), id, text);
  }

  ghost predicate Completed(t: State, id: Id, generation: nat, text: Text) {
    && id in t.rows.jobs && t.rows.jobs[id].status == Succeeded && t.rows.jobs[id].response == Some(text)
    && ToDaemon.Acknowledge(id, generation) in t.toDaemon
  }

  lemma RunFour(s: State, a: seq<Action>)
    requires |a| >= 4
    ensures Run(s, a) == Run(Step(Step(Step(Step(s, a[0]), a[1]), a[2]), a[3]), a[4..])
  {
    var b, c, d := a[1..], a[2..], a[3..];
    assert b[1..] == c && c[1..] == d && d[1..] == a[4..];
    assert Run(s, a) == Run(Step(s, a[0]), b);
    assert Run(Step(s, a[0]), b) == Run(Step(Step(s, a[0]), b[0]), c);
    var t := Step(Step(s, a[0]), a[1]);
    assert Run(t, c) == Run(Step(t, c[0]), d);
    assert Run(Step(t, c[0]), d) == Run(Step(Step(t, c[0]), d[0]), a[4..]);
  }

  lemma RunEight(s: State, a: seq<Action>)
    requires |a| == 8
    ensures Run(s, a)
            == Step(Step(Step(Step(Step(Step(Step(Step(s, a[0]), a[1]), a[2]), a[3]), a[4]), a[5]), a[6]), a[7])
  {
    var b := a[4..];
    RunFour(s, a);
    RunFour(Step(Step(Step(Step(s, a[0]), a[1]), a[2]), a[3]), b);
    assert b[4..] == [];
  }
}
