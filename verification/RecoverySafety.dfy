/** What every run of the recovery protocol keeps: an invariant over all reachable states, and
    what it says about dispatch, receipts and results. */
module RecoverySafety {
  import Receipts
  import opened Recovery
  import opened Wrappers

  type Jobs = map<Id, Job>

  // The requests on their way to the daemon.
  ghost function Asked(q: seq<ToDaemon>): multiset<Id> {
    if q == [] then multiset{}
    else (if q[0].Request? then multiset{q[0].id} else multiset{}) + Asked(q[1..])
  }

  lemma {:induction false} AskedAppend(q: seq<ToDaemon>, m: ToDaemon)
    ensures Asked(q + [m]) == Asked(q) + if m.Request? then multiset{m.id} else multiset{}
  {
    if q == [] {
      assert q + [m] == [m] && [m][1..] == [];
    } else {
      assert (q + [m])[0] == q[0] && (q + [m])[1..] == q[1..] + [m];
      AskedAppend(q[1..], m);
    }
  }

  // A row of a job that was never dispatched knows no generation, and a settled one no deadline.
  ghost predicate RowOk(j: Job, next: nat) {
    && (j.status.Queued? ==> j.generation.None? && j.deadline.None?)
    && (j.InFlight() ==> j.generation.Some?)
    && (j.Terminal() ==> j.deadline.None?)
    && (!j.Terminal() ==> j.response.None? && j.error.None?)
    && (j.generation.Some? ==> j.generation.value < next)
  }

  ghost predicate RowsOk(jobs: Jobs, next: nat) {
    forall id :: id in jobs ==> RowOk(jobs[id], next)
  }

  predicate Pinned(jobs: Jobs, id: Id, generation: nat) {
    id in jobs && jobs[id].generation == Some(generation)
  }

  predicate WasDispatched(jobs: Jobs, id: Id) {
    id in jobs && jobs[id].generation.Some?
  }

  // A request reaches the dispatcher or is on its way, once, and under the pinned generation.
  ghost predicate RunOk(jobs: Jobs, ran: multiset<Id>, asked: multiset<Id>, generation: nat, id: Id) {
    && ran[id] + asked[id] <= 1
    && (ran[id] + asked[id] > 0 ==> WasDispatched(jobs, id))
    && (asked[id] > 0 ==> Pinned(jobs, id, generation))
  }

  ghost predicate RunsOk(jobs: Jobs, ran: multiset<Id>, asked: multiset<Id>, generation: nat) {
    forall id: Id :: RunOk(jobs, ran, asked, generation, id)
  }

  // The daemon has a receipt for everything it has run under its generation and that is not settled.
  ghost predicate ReceiptsOk(jobs: Jobs, ran: multiset<Id>, d: Receipts.Daemon, generation: nat,
                             produced: set<Product>)
  {
    && Receipts.Inv(d)
    && (forall id :: id in d.table ==> ran[id] == 1 && Pinned(jobs, id, generation))
    && (forall id :: id in d.table && d.table[id].response.Some? ==>
                       Product(generation, id, d.table[id].response.value) in produced)
    && forall id :: id in jobs && !jobs[id].Terminal() && jobs[id].generation == Some(generation) && ran[id] == 1 ==>
                      id in d.table
  }

  ghost predicate DownMessage(jobs: Jobs, asked: multiset<Id>, generation: nat, m: ToDaemon) {
    match m
    case Request(_, _) => true
    case Recover(id, g) => g == generation && Pinned(jobs, id, g) && asked[id] == 0
    case Acknowledge(id, g) => g == generation && id in jobs && jobs[id].Terminal()
  }

  ghost predicate DownOk(jobs: Jobs, asked: multiset<Id>, generation: nat, q: seq<ToDaemon>) {
    forall m :: m in q ==> DownMessage(jobs, asked, generation, m)
  }

  // Not carried out, and never to be: or settled already.
  ghost predicate Unseen(jobs: Jobs, ran: multiset<Id>, asked: multiset<Id>, id: Id) {
    WasDispatched(jobs, id) && asked[id] == 0 && (jobs[id].Terminal() || ran[id] == 0)
  }

  ghost predicate UpMessage(jobs: Jobs, ran: multiset<Id>, asked: multiset<Id>, produced: set<Product>, generation: nat,
                            m: ToGateway)
  {
    match m
    case Response(id, g, text) => g == generation && Pinned(jobs, id, g) && Product(g, id, text) in produced
    case Accepted(id, g) => g == generation && ran[id] == 1
    case Missing(id, g) => g == generation && Unseen(jobs, ran, asked, id)
  }

  ghost predicate UpOk(jobs: Jobs, ran: multiset<Id>, asked: multiset<Id>, produced: set<Product>, generation: nat,
                       q: seq<ToGateway>)
  {
    forall m :: m in q ==> UpMessage(jobs, ran, asked, produced, generation, m)
  }

  // The session knows every job in flight.
  ghost predicate GatewayOk(jobs: Jobs, asked: multiset<Id>, g: Gateway) {
    && (!g.up ==> g == DOWN)
    && (forall id :: id in g.pending ==> Pinned(jobs, id, g.generation))
    && (forall id :: id in g.recovering ==> Pinned(jobs, id, g.generation) && asked[id] == 0)
    && (forall id :: id in g.stale ==> WasDispatched(jobs, id) && g.stale[id] != ReceiptMissing)
    && (g.up && !g.revoked ==> forall id :: id in jobs && jobs[id].InFlight() ==> id in g.pending || id in g.stale)
  }

  ghost predicate ProductsOk(jobs: Jobs, produced: set<Product>) {
    forall p :: p in produced ==> Pinned(jobs, p.id, p.generation)
  }

  // A stored response was produced for the job under its generation; a missing receipt means that
  // it was never carried out, and a recorded acceptance that it was.
  ghost predicate ResultOk(j: Job, id: Id, ran: multiset<Id>, asked: multiset<Id>, produced: set<Product>) {
    && (j.response.Some? ==> j.generation.Some? && Product(j.generation.value, id, j.response.value) in produced)
    && (j.error == Some(ReceiptMissing) ==> j.generation.Some? && ran[id] == 0 && asked[id] == 0)
    && (j.status.Waiting? ==> ran[id] == 1)
  }

  ghost predicate ResultsOk(jobs: Jobs, ran: multiset<Id>, asked: multiset<Id>, produced: set<Product>) {
    forall id :: id in jobs ==> ResultOk(jobs[id], id, ran, asked, produced)
  }

  ghost function InFlight(jobs: Jobs): set<Id> {
    set id | id in jobs && jobs[id].InFlight()
  }

  ghost function Ordinary(jobs: Jobs): set<Id> {
    set id | id in jobs && jobs[id].InFlight() && !jobs[id].control
  }

  ghost predicate CountsOk(jobs: Jobs) {
    |Ordinary(jobs)| <= MAX_PENDING_REQUESTS && |InFlight(jobs)| <= MAX_PENDING_REQUESTS + RESERVED_CONTROL_REQUESTS
  }

  function EventOf(id: Id, j: Job): Event {
    Event(id, j.status, j.response, j.error)
  }

  // One outbox row for every settled job whose owner had a callback, and no other.
  ghost predicate OutboxOk(d: Rows) {
    && (forall e :: e in d.outbox ==>
                      && d.outbox[e] == 1 && e.id in d.jobs && d.jobs[e.id].Terminal() && d.jobs[e.id].hooked
                      && e == EventOf(e.id, d.jobs[e.id]))
    && (forall id :: id in d.jobs && d.jobs[id].Terminal() && d.jobs[id].hooked ==> EventOf(id, d.jobs[id]) in d.outbox)
  }

  ghost predicate LinksOk(s: State) {
    && s.daemon.generation < s.next && (s.gateway.up ==> s.gateway.generation < s.next)
    && (s.gateway.up && s.daemon.up ==> s.gateway.generation == s.daemon.generation)
    && (!s.gateway.up ==> s.toGateway == [])
    && (!s.daemon.up ==> s.toDaemon == [])
  }

  ghost predicate Inv(s: State) {
    var jobs, asked, g := s.rows.jobs, Asked(s.toDaemon), s.daemon.generation;
    && LinksOk(s)
    && RowsOk(jobs, s.next)
    && RunsOk(jobs, s.ran, asked, g)
    && ReceiptsOk(jobs, s.ran, s.daemon.receipts, g, s.produced)
    && DownOk(jobs, asked, g, s.toDaemon)
    && UpOk(jobs, s.ran, asked, s.produced, s.gateway.generation, s.toGateway)
    && GatewayOk(jobs, asked, s.gateway)
    && ProductsOk(jobs, s.produced)
    && ResultsOk(jobs, s.ran, asked, s.produced)
    && CountsOk(jobs)
    && OutboxOk(s.rows)
  }

  // What may happen to a row without a dispatch: a settled one stays, a queued one is not in
  // flight, and none loses its generation.
  predicate Evolves(j: Job, k: Job) {
    && k.generation == j.generation && k.control == j.control
    && (j.Terminal() ==> k == j)
    && (j.status.Queued? ==> k.status.Queued? || k.Terminal())
    && (j.InFlight() ==> k.InFlight() || k.Terminal())
  }

  ghost predicate AllEvolve(jobs: Jobs, later: Jobs) {
    && (forall id :: id in jobs ==> id in later && Evolves(jobs[id], later[id]))
    && (forall id :: id in later && id !in jobs ==> later[id].status.Queued? && later[id].generation.None?)
  }

  lemma FewerInFlight(jobs: Jobs, later: Jobs)
    requires AllEvolve(jobs, later) && CountsOk(jobs)
    ensures CountsOk(later)
  {
    assert InFlight(later) <= InFlight(jobs);
    assert Ordinary(later) <= Ordinary(jobs);
    SubsetSize(InFlight(later), InFlight(jobs));
    SubsetSize(Ordinary(later), Ordinary(jobs));
  }

  lemma RunsEvolve(jobs: Jobs, later: Jobs, ran: multiset<Id>, asked: multiset<Id>, generation: nat)
    requires AllEvolve(jobs, later) && RunsOk(jobs, ran, asked, generation)
    ensures RunsOk(later, ran, asked, generation)
  {
    forall id: Id
      ensures RunOk(later, ran, asked, generation, id)
    {
      assert RunOk(jobs, ran, asked, generation, id);
    }
  }

  lemma ReceiptsEvolve(jobs: Jobs, later: Jobs, ran: multiset<Id>, d: Receipts.Daemon, generation: nat,
                       produced: set<Product>)
    requires AllEvolve(jobs, later) && ReceiptsOk(jobs, ran, d, generation, produced)
    ensures ReceiptsOk(later, ran, d, generation, produced)
  {
  }

  lemma DownEvolve(jobs: Jobs, later: Jobs, asked: multiset<Id>, generation: nat, q: seq<ToDaemon>)
    requires AllEvolve(jobs, later) && DownOk(jobs, asked, generation, q)
    ensures DownOk(later, asked, generation, q)
  {
    forall m | m in q
      ensures DownMessage(later, asked, generation, m)
    {
      assert DownMessage(jobs, asked, generation, m);
    }
  }

  lemma UpEvolve(jobs: Jobs, later: Jobs, ran: multiset<Id>, asked: multiset<Id>, produced: set<Product>,
                 generation: nat, q: seq<ToGateway>)
    requires AllEvolve(jobs, later) && UpOk(jobs, ran, asked, produced, generation, q)
    ensures UpOk(later, ran, asked, produced, generation, q)
  {
    forall m | m in q
      ensures UpMessage(later, ran, asked, produced, generation, m)
    {
      assert UpMessage(jobs, ran, asked, produced, generation, m);
    }
  }

  lemma GatewayEvolve(jobs: Jobs, later: Jobs, asked: multiset<Id>, g: Gateway)
    requires AllEvolve(jobs, later) && GatewayOk(jobs, asked, g)
    ensures GatewayOk(later, asked, g)
  {
  }

  // Rows that evolve disturb nothing but themselves.
  lemma RowsEvolve(s: State, rows: Rows)
    requires Inv(s) && AllEvolve(s.rows.jobs, rows.jobs)
    requires RowsOk(rows.jobs, s.next) && ResultsOk(rows.jobs, s.ran, Asked(s.toDaemon), s.produced) && OutboxOk(rows)
    ensures Inv(s.(rows := rows))
  {
    var jobs, later, asked := s.rows.jobs, rows.jobs, Asked(s.toDaemon);
    FewerInFlight(jobs, later);
    RunsEvolve(jobs, later, s.ran, asked, s.daemon.generation);
    ReceiptsEvolve(jobs, later, s.ran, s.daemon.receipts, s.daemon.generation, s.produced);
    DownEvolve(jobs, later, asked, s.daemon.generation, s.toDaemon);
    UpEvolve(jobs, later, s.ran, asked, s.produced, s.gateway.generation, s.toGateway);
    GatewayEvolve(jobs, later, asked, s.gateway);
  }

  // An outcome that may be stored for a job.
  ghost predicate OutcomeOk(s: State, id: Id, o: Outcome) {
    && (o.status.Succeeded? || o.status.Failed? || o.status.Unknown?)
    && (o.response.Some? ==>
          WasDispatched(s.rows.jobs, id)
          && Product(s.rows.jobs[id].generation.value, id, o.response.value) in s.produced)
    && (o.error == Some(ReceiptMissing) ==>
          WasDispatched(s.rows.jobs, id) && (s.rows.jobs[id].Terminal() || s.ran[id] == 0)
          && Asked(s.toDaemon)[id] == 0)
  }

  lemma FinishOutbox(d: Rows, id: Id, o: Outcome, hook: bool)
    requires OutboxOk(d) && (o.status.Succeeded? || o.status.Failed? || o.status.Unknown?)
    ensures OutboxOk(Finish(d, id, o, hook))
  {
    if id in d.jobs && !d.jobs[id].Terminal() {
      var e := Event(id, o.status, o.response, o.error);
      assert e !in d.outbox;
      var f := Finish(d, id, o, hook);
      assert forall x :: x in d.outbox ==> x.id != id;
      forall other | other in f.jobs && f.jobs[other].Terminal() && f.jobs[other].hooked
        ensures EventOf(other, f.jobs[other]) in f.outbox
      {
        assert other != id ==> f.jobs[other] == d.jobs[other];
      }
    }
  }

  lemma FinishEvolves(d: Rows, id: Id, o: Outcome, hook: bool, next: nat)
    requires RowsOk(d.jobs, next) && (o.status.Succeeded? || o.status.Failed? || o.status.Unknown?)
    ensures AllEvolve(d.jobs, Finish(d, id, o, hook).jobs) && RowsOk(Finish(d, id, o, hook).jobs, next)
  {
  }

  /** Settling a job keeps the invariant. */
  lemma FinishKeeps(s: State, id: Id, o: Outcome, hook: bool)
    requires Inv(s) && OutcomeOk(s, id, o)
    ensures Inv(s.(rows := Finish(s.rows, id, o, hook)))
    ensures id in s.rows.jobs ==> Finish(s.rows, id, o, hook).jobs[id].Terminal()
  {
    FinishOutbox(s.rows, id, o, hook);
    FinishEvolves(s.rows, id, o, hook, s.next);
    FinishResults(s.rows, id, o, hook, s.ran, Asked(s.toDaemon), s.produced);
    RowsEvolve(s, Finish(s.rows, id, o, hook));
  }

  lemma FinishResults(d: Rows, id: Id, o: Outcome, hook: bool, ran: multiset<Id>, asked: multiset<Id>,
                      produced: set<Product>)
    requires ResultsOk(d.jobs, ran, asked, produced)
    requires id in d.jobs && !d.jobs[id].Terminal() ==> ResultOk(Settled(d.jobs[id], o, hook), id, ran, asked, produced)
    ensures ResultsOk(Finish(d, id, o, hook).jobs, ran, asked, produced)
  {
  }

  // A row that changes only its phase in flight and its deadline.
  predicate Waits(j: Job, k: Job) {
    k == j || (j.InFlight() && k.InFlight() && k == j.(status := k.status, deadline := k.deadline))
  }

  // Only what was carried out is recorded as accepted.
  ghost predicate AcceptedRan(jobs: Jobs, later: Jobs, ran: multiset<Id>) {
    forall id :: id in later && later[id].status.Waiting? ==> ran[id] == 1 || (id in jobs && jobs[id].status.Waiting?)
  }

  lemma WaitingKeeps(s: State, jobs: Jobs)
    requires Inv(s) && jobs.Keys == s.rows.jobs.Keys && forall id :: id in jobs ==> Waits(s.rows.jobs[id], jobs[id])
    requires AcceptedRan(s.rows.jobs, jobs, s.ran)
    ensures Inv(s.(rows := s.rows.(jobs := jobs)))
  {
    WaitingRows(s.rows.jobs, jobs, s.next);
    WaitingResults(s.rows.jobs, jobs, s.ran, Asked(s.toDaemon), s.produced);
    WaitingOutbox(s.rows, jobs);
    RowsEvolve(s, s.rows.(jobs := jobs));
  }

  lemma WaitingRows(jobs: Jobs, later: Jobs, next: nat)
    requires RowsOk(jobs, next) && later.Keys == jobs.Keys && forall id :: id in later ==> Waits(jobs[id], later[id])
    ensures RowsOk(later, next) && AllEvolve(jobs, later)
  {
  }

  lemma WaitingResults(jobs: Jobs, later: Jobs, ran: multiset<Id>, asked: multiset<Id>, produced: set<Product>)
    requires ResultsOk(jobs, ran, asked, produced) && later.Keys == jobs.Keys && AcceptedRan(jobs, later, ran)
    requires forall id :: id in later ==> Waits(jobs[id], later[id])
    ensures ResultsOk(later, ran, asked, produced)
  {
    forall id | id in later
      ensures ResultOk(later[id], id, ran, asked, produced)
    {
      assert ResultOk(jobs[id], id, ran, asked, produced);
    }
  }

  lemma WaitingOutbox(d: Rows, later: Jobs)
    requires OutboxOk(d) && later.Keys == d.jobs.Keys && forall id :: id in later ==> Waits(d.jobs[id], later[id])
    ensures OutboxOk(d.(jobs := later))
  {
    forall id | id in later && later[id].Terminal()
      ensures d.jobs[id] == later[id]
    {
      assert Waits(d.jobs[id], later[id]);
    }
    forall id | id in d.jobs && d.jobs[id].Terminal()
      ensures d.jobs[id] == later[id]
    {
      assert Waits(d.jobs[id], later[id]);
    }
  }

  lemma WindowsKeep(s: State, generation: Option<nat>)
    requires Inv(s)
    ensures Inv(s.(rows := s.rows.(jobs := StartWindows(s.rows.jobs, generation, s.now))))
  {
    WaitingKeeps(s, StartWindows(s.rows.jobs, generation, s.now));
  }

  lemma AcceptKeeps(s: State, id: Id, generation: nat)
    requires Inv(s) && s.ran[id] == 1
    ensures Inv(s.(rows := s.rows.(jobs := Accept(s.rows.jobs, id, generation, s.now))))
  {
    WaitingKeeps(s, Accept(s.rows.jobs, id, generation, s.now));
  }

  lemma SubmitKeeps(s: State, id: Id, j: Job)
    requires Inv(s) && id !in s.rows.jobs && j.status.Queued? && RowOk(j, s.next)
    ensures Inv(s.(rows := s.rows.(jobs := s.rows.jobs[id := j])))
  {
    var rows := s.rows.(jobs := s.rows.jobs[id := j]);
    RowsEvolve(s, rows);
  }

  // Messages taken from the gateway's queue.
  lemma FewerUp(s: State, q: seq<ToGateway>)
    requires Inv(s) && (forall m :: m in q ==> m in s.toGateway) && (s.toGateway == [] ==> q == [])
    ensures Inv(s.(toGateway := q))
  {
  }

  lemma SendUp(s: State, m: ToGateway)
    requires Inv(s)
    requires s.gateway.up ==> UpMessage(s.rows.jobs, s.ran, Asked(s.toDaemon), s.produced, s.gateway.generation, m)
    ensures Inv(ToGatewaySent(s, m))
  {
  }

  lemma SendDown(s: State, m: ToDaemon)
    requires Inv(s) && !m.Request?
    requires s.daemon.up ==> DownMessage(s.rows.jobs, Asked(s.toDaemon), s.daemon.generation, m)
    ensures Inv(ToDaemonSent(s, m))
  {
    AskedAppend(s.toDaemon, m);
    assert Asked(s.toDaemon + [m]) == Asked(s.toDaemon);
  }

  // The session is over, or not there.
  lemma GatewayDown(s: State)
    requires Inv(s)
    ensures Inv(s.(gateway := DOWN, toGateway := []))
  {
  }

  // The recovery windows start, and there is no session.
  function Ended(s: State, generation: Option<nat>): State {
    s.(rows := s.rows.(jobs := StartWindows(s.rows.jobs, generation, s.now)), gateway := DOWN, toGateway := [])
  }

  lemma EndedKeeps(s: State, generation: Option<nat>)
    requires Inv(s)
    ensures Inv(Ended(s, generation))
  {
    var t := s.(rows := s.rows.(jobs := StartWindows(s.rows.jobs, generation, s.now)));
    WindowsKeep(s, generation);
    GatewayDown(t);
    assert Ended(s, generation) == t.(gateway := DOWN, toGateway := []);
  }

  lemma SessionEndKeeps(s: State)
    requires Inv(s)
    ensures Inv(SessionEnds(s))
  {
    EndedKeeps(s, Some(s.gateway.generation));
    assert SessionEnds(s) == Ended(s, Some(s.gateway.generation));
  }

  // A job the session need not wait for any more.
  lemma PendingWithout(s: State, id: Id)
    requires Inv(s) && (id in s.rows.jobs ==> !s.rows.jobs[id].InFlight())
    ensures Inv(s.(gateway := s.gateway.(pending := s.gateway.pending - {id})))
  {
  }

  // Messages taken from the daemon's queue.
  lemma FewerDown(s: State, q: seq<ToDaemon>)
    requires Inv(s) && (forall m :: m in q ==> m in s.toDaemon) && (s.toDaemon == [] ==> q == [])
    requires Asked(q) <= Asked(s.toDaemon)
    ensures Inv(s.(toDaemon := q))
  {
    FewerAsked(s.rows.jobs, s.ran, Asked(s.toDaemon), Asked(q), s.daemon.generation, s.produced);
    FewerAskedMessages(s, Asked(q));
  }

  lemma FewerAsked(jobs: Jobs, ran: multiset<Id>, asked: multiset<Id>, fewer: multiset<Id>, generation: nat,
                   produced: set<Product>)
    requires fewer <= asked
    ensures RunsOk(jobs, ran, asked, generation) ==> RunsOk(jobs, ran, fewer, generation)
    ensures ResultsOk(jobs, ran, asked, produced) ==> ResultsOk(jobs, ran, fewer, produced)
  {
    if RunsOk(jobs, ran, asked, generation) {
      forall id: Id
        ensures RunOk(jobs, ran, fewer, generation, id)
      {
        assert RunOk(jobs, ran, asked, generation, id);
      }
    }
  }

  lemma FewerAskedMessages(s: State, fewer: multiset<Id>)
    requires Inv(s) && fewer <= Asked(s.toDaemon)
    ensures DownOk(s.rows.jobs, fewer, s.daemon.generation, s.toDaemon)
    ensures UpOk(s.rows.jobs, s.ran, fewer, s.produced, s.gateway.generation, s.toGateway)
    ensures GatewayOk(s.rows.jobs, fewer, s.gateway)
  {
    var asked := Asked(s.toDaemon);
    forall m | m in s.toDaemon
      ensures DownMessage(s.rows.jobs, fewer, s.daemon.generation, m)
    {
      assert DownMessage(s.rows.jobs, asked, s.daemon.generation, m);
    }
    forall m | m in s.toGateway
      ensures UpMessage(s.rows.jobs, s.ran, fewer, s.produced, s.gateway.generation, m)
    {
      assert UpMessage(s.rows.jobs, s.ran, asked, s.produced, s.gateway.generation, m);
    }
  }

  lemma TakeDown(s: State)
    requires Inv(s) && s.toDaemon != []
    ensures Inv(s.(toDaemon := s.toDaemon[1..]))
  {
    FewerDown(s, s.toDaemon[1..]);
  }

  lemma LoseDown(s: State)
    requires Inv(s) && s.toDaemon != []
    ensures Inv(s.(toDaemon := s.toDaemon[..|s.toDaemon| - 1]))
  {
    var q := s.toDaemon;
    assert q == q[..|q| - 1] + [q[|q| - 1]];
    AskedAppend(q[..|q| - 1], q[|q| - 1]);
    FewerDown(s, q[..|q| - 1]);
  }

  lemma ConnectionEndKeeps(s: State)
    requires Inv(s)
    ensures Inv(ConnectionEnds(s))
  {
    FewerDown(s, []);
  }

  // A request just taken: dispatched under this generation, never carried out, on its way no
  // more, and nobody says that it is missing.
  ghost predicate Taken(s: State, id: Id) {
    && Pinned(s.rows.jobs, id, s.daemon.generation) && s.ran[id] == 0 && Asked(s.toDaemon)[id] == 0
    && s.rows.jobs[id].error != Some(ReceiptMissing)
    && forall m :: m in s.toGateway && m.Missing? ==> m.id != id
  }

  lemma TakeRequest(s: State)
    requires Inv(s) && s.toDaemon != [] && s.toDaemon[0].Request?
    ensures Inv(s.(toDaemon := s.toDaemon[1..])) && Taken(s.(toDaemon := s.toDaemon[1..]), s.toDaemon[0].id)
  {
    TakeDown(s);
    var id, asked := s.toDaemon[0].id, Asked(s.toDaemon);
    assert asked[id] > 0 && RunOk(s.rows.jobs, s.ran, asked, s.daemon.generation, id);
    assert ResultOk(s.rows.jobs[id], id, s.ran, asked, s.produced);
    forall m | m in s.toGateway && m.Missing?
      ensures m.id != id
    {
      assert UpMessage(s.rows.jobs, s.ran, asked, s.produced, s.gateway.generation, m);
    }
  }

  lemma ProducedGrows(s: State, id: Id, text: Text)
    requires Inv(s) && Pinned(s.rows.jobs, id, s.daemon.generation)
    ensures Inv(s.(produced := s.produced + {Product(s.daemon.generation, id, text)}))
  {
    var more := s.produced + {Product(s.daemon.generation, id, text)};
    forall m | m in s.toGateway
      ensures UpMessage(s.rows.jobs, s.ran, Asked(s.toDaemon), more, s.gateway.generation, m)
    {
      assert UpMessage(s.rows.jobs, s.ran, Asked(s.toDaemon), s.produced, s.gateway.generation, m);
    }
    forall other | other in s.rows.jobs
      ensures ResultOk(s.rows.jobs[other], other, s.ran, Asked(s.toDaemon), more)
    {
      assert ResultOk(s.rows.jobs[other], other, s.ran, Asked(s.toDaemon), s.produced);
    }
  }

  lemma RejectKeeps(s: State, id: Id, text: Text)
    requires Inv(s) && Pinned(s.rows.jobs, id, s.daemon.generation) && s.daemon.up
    ensures Inv(Rejected(s, id, text))
  {
    ProducedGrows(s, id, text);
    SendUp(s.(produced := s.produced + {Product(s.daemon.generation, id, text)}),
           Response(id, s.daemon.generation, text));
  }

  // The request reaches the dispatcher.
  lemma NewKeeps(s: State, id: Id, fingerprint: nat, busy: bool)
    requires Inv(s) && Taken(s, id) && Receipts.Admitted(s.daemon.receipts.table, id, fingerprint, busy).New?
    ensures var receipts := Receipts.Step(s.daemon.receipts, Receipts.Call.Accept(id, fingerprint, busy));
            Inv(s.(daemon := s.daemon.(receipts := receipts), ran := s.ran + multiset{id}))
  {
    var ran, asked := s.ran + multiset{id}, Asked(s.toDaemon);
    Receipts.StepKeepsInv(s.daemon.receipts, Receipts.Call.Accept(id, fingerprint, busy));
    RanMore(s.rows.jobs, s.ran, asked, s.daemon.generation, s.produced, id);
    RanMoreUp(s.rows.jobs, s.ran, asked, s.produced, s.gateway.generation, s.toGateway, id);
  }

  lemma RanMore(jobs: Jobs, ran: multiset<Id>, asked: multiset<Id>, generation: nat, produced: set<Product>, id: Id)
    requires RunsOk(jobs, ran, asked, generation) && ResultsOk(jobs, ran, asked, produced)
    requires Pinned(jobs, id, generation) && ran[id] == 0 && asked[id] == 0 && jobs[id].error != Some(ReceiptMissing)
    ensures RunsOk(jobs, ran + multiset{id}, asked, generation) && ResultsOk(jobs, ran + multiset{id}, asked, produced)
  {
    forall other: Id
      ensures RunOk(jobs, ran + multiset{id}, asked, generation, other)
    {
      assert RunOk(jobs, ran, asked, generation, other);
    }
    forall other | other in jobs
      ensures ResultOk(jobs[other], other, ran + multiset{id}, asked, produced)
    {
      assert ResultOk(jobs[other], other, ran, asked, produced);
    }
  }

  lemma RanMoreUp(jobs: Jobs, ran: multiset<Id>, asked: multiset<Id>, produced: set<Product>, generation: nat,
                  q: seq<ToGateway>, id: Id)
    requires UpOk(jobs, ran, asked, produced, generation, q) && ran[id] == 0
    requires forall m :: m in q && m.Missing? ==> m.id != id
    ensures UpOk(jobs, ran + multiset{id}, asked, produced, generation, q)
  {
    forall m | m in q
      ensures UpMessage(jobs, ran + multiset{id}, asked, produced, generation, m)
    {
      assert UpMessage(jobs, ran, asked, produced, generation, m);
    }
  }

  // What the daemon says about a receipt may be sent.
  lemma ReceiptMessageOk(s: State, id: Id)
    requires Inv(s) && s.gateway.up && s.daemon.up
    requires id in s.daemon.receipts.table || Asked(s.toDaemon)[id] == 0
    requires Pinned(s.rows.jobs, id, s.daemon.generation)
    ensures UpMessage(s.rows.jobs, s.ran, Asked(s.toDaemon), s.produced, s.gateway.generation,
                      ReceiptMessage(s.daemon, id, s.daemon.generation))
  {
    ReceiptMessageTrue(s.rows.jobs, s.ran, Asked(s.toDaemon), s.produced, s.daemon, id);
  }

  lemma ReceiptMessageTrue(
    jobs: Jobs, ran: multiset<Id>, asked: multiset<Id>, produced: set<Product>, d: Daemon, id: Id)
    requires RunsOk(jobs, ran, asked, d.generation) && ReceiptsOk(jobs, ran, d.receipts, d.generation, produced)
    requires (id in d.receipts.table || asked[id] == 0) && Pinned(jobs, id, d.generation)
    ensures UpMessage(jobs, ran, asked, produced, d.generation, ReceiptMessage(d, id, d.generation))
  {
    assert RunOk(jobs, ran, asked, d.generation, id);
  }

  lemma SentForgets(s: State, sent: set<Id>)
    requires Inv(s)
    ensures Inv(s.(daemon := s.daemon.(sent := sent)))
  {
  }

  lemma AcceptRequestKeeps(s: State, id: Id, fingerprint: nat, busy: bool, text: Text)
    requires Inv(s) && Taken(s, id) && s.daemon.up
    ensures Inv(AcceptRequest(s, id, fingerprint, busy, text))
  {
    match Receipts.Admitted(s.daemon.receipts.table, id, fingerprint, busy)
    case New =>
      NewKeeps(s, id, fingerprint, busy);
      var receipts := Receipts.Step(s.daemon.receipts, Receipts.Call.Accept(id, fingerprint, busy));
      SendUp(s.(daemon := s.daemon.(receipts := receipts), ran := s.ran + multiset{id}),
             Accepted(id, s.daemon.generation));
    case Existing =>
      if s.gateway.up {
        ReceiptMessageOk(s, id);
      }
      SendUp(s, ReceiptMessage(s.daemon, id, s.daemon.generation));
    case Conflict =>
      ConnectionEndKeeps(s);
    case Full =>
      RejectKeeps(s, id, text);
  }

  // A settled job may lose its receipt.
  lemma AcknowledgeKeeps(s: State, id: Id)
    requires Inv(s) && id in s.rows.jobs && s.rows.jobs[id].Terminal()
    ensures Inv(s.(daemon := s.daemon.(receipts := Receipts.Step(s.daemon.receipts, Receipts.Call.Acknowledge(id)))))
  {
    AcknowledgeReceipts(s.rows.jobs, s.ran, s.daemon.receipts, s.daemon.generation, s.produced, id);
    ReceiptsChange(s, Receipts.Step(s.daemon.receipts, Receipts.Call.Acknowledge(id)));
  }

  lemma AcknowledgeReceipts(jobs: Jobs, ran: multiset<Id>, d: Receipts.Daemon, generation: nat, produced: set<Product>,
                            id: Id)
    requires ReceiptsOk(jobs, ran, d, generation, produced) && id in jobs && jobs[id].Terminal()
    ensures ReceiptsOk(jobs, ran, Receipts.Step(d, Receipts.Call.Acknowledge(id)), generation, produced)
  {
    Receipts.StepKeepsInv(d, Receipts.Call.Acknowledge(id));
  }

  lemma CompleteKeeps(s: State, id: Id, text: Text)
    requires Inv(s) && id in s.daemon.receipts.tasks && |text| <= Receipts.MAX_FRAME_BYTES
    ensures var receipts := Receipts.Step(s.daemon.receipts, Receipts.Call.Complete(id, text));
            Inv(s.(daemon := s.daemon.(receipts := receipts),
                   produced := s.produced + {Product(s.daemon.generation, id, text)}))
  {
    assert id in s.daemon.receipts.table;
    ProducedGrows(s, id, text);
    var t := s.(produced := s.produced + {Product(s.daemon.generation, id, text)});
    CompleteReceipts(s.rows.jobs, s.ran, s.daemon.receipts, s.daemon.generation, t.produced, id, text);
    var receipts := Receipts.Step(s.daemon.receipts, Receipts.Call.Complete(id, text));
    ReceiptsChange(t, receipts);
    assert t.(daemon := t.daemon.(receipts := receipts))
           == s.(daemon := s.daemon.(receipts := receipts), produced := t.produced);
  }

  lemma CompleteReceipts(jobs: Jobs, ran: multiset<Id>, d: Receipts.Daemon, generation: nat, produced: set<Product>,
                         id: Id, text: Text)
    requires ReceiptsOk(jobs, ran, d, generation, produced) && id in d.tasks && |text| <= Receipts.MAX_FRAME_BYTES
    requires Product(generation, id, text) in produced
    ensures ReceiptsOk(jobs, ran, Receipts.Step(d, Receipts.Call.Complete(id, text)), generation, produced)
  {
    Receipts.StepKeepsInv(d, Receipts.Call.Complete(id, text));
  }

  // A daemon with another table that is as good.
  lemma ReceiptsChange(s: State, receipts: Receipts.Daemon)
    requires Inv(s) && ReceiptsOk(s.rows.jobs, s.ran, receipts, s.daemon.generation, s.produced)
    ensures Inv(s.(daemon := s.daemon.(receipts := receipts)))
  {
  }

  lemma TakeRecover(s: State, id: Id)
    requires Inv(s) && s.daemon.up
             && DownMessage(s.rows.jobs, Asked(s.toDaemon), s.daemon.generation, Recover(id, s.daemon.generation))
    ensures Inv(ToGatewaySent(s.(daemon := s.daemon.(sent := s.daemon.sent - {id})),
                              ReceiptMessage(s.daemon, id, s.daemon.generation)))
  {
    var t := s.(daemon := s.daemon.(sent := s.daemon.sent - {id}));
    SentForgets(s, s.daemon.sent - {id});
    if t.gateway.up {
      ReceiptMessageOk(t, id);
    }
    SendUp(t, ReceiptMessage(s.daemon, id, s.daemon.generation));
  }

  // The receipt is gone, and may be sent again when there is a new one.
  ghost function Released(s: State, id: Id): State {
    var receipts := Receipts.Step(s.daemon.receipts, Receipts.Call.Acknowledge(id));
    s.(daemon := s.daemon.(receipts := receipts, sent := s.daemon.sent - {id}))
  }

  lemma TakeAcknowledge(s: State, id: Id)
    requires Inv(s) && id in s.rows.jobs && s.rows.jobs[id].Terminal()
    ensures Inv(Released(s, id))
  {
    AcknowledgeKeeps(s, id);
    var t := s.(daemon := s.daemon.(receipts := Receipts.Step(s.daemon.receipts, Receipts.Call.Acknowledge(id))));
    SentForgets(t, s.daemon.sent - {id});
    assert Released(s, id) == t.(daemon := t.daemon.(sent := s.daemon.sent - {id}));
  }

  lemma FirstDown(s: State)
    requires Inv(s) && s.toDaemon != []
    ensures DownMessage(s.rows.jobs, Asked(s.toDaemon), s.daemon.generation, s.toDaemon[0])
    ensures !s.toDaemon[0].Request? ==> Asked(s.toDaemon[1..]) == Asked(s.toDaemon)
  {
    assert s.toDaemon[0] in s.toDaemon;
  }

  lemma DaemonTakesKeeps(s: State, busy: bool, malformed: bool, text: Text)
    requires Inv(s) && s.toDaemon != [] && s.daemon.up
    ensures Inv(DaemonTakes(s, busy, malformed, text))
  {
    var t := s.(toDaemon := s.toDaemon[1..]);
    TakeDown(s);
    FirstDown(s);
    match s.toDaemon[0]
    case Request(id, fingerprint) =>
      TakeRequest(s);
      if malformed {
        RejectKeeps(t, id, text);
      } else {
        AcceptRequestKeeps(t, id, fingerprint, busy, text);
      }
    case Recover(id, generation) => TakeRecover(t, id);
    case Acknowledge(id, generation) => TakeAcknowledge(t, id);
  }

  lemma RespondKeeps(s: State, id: Id, text: Text, hook: bool)
    requires Inv(s) && WasDispatched(s.rows.jobs, id)
             && Product(s.rows.jobs[id].generation.value, id, text) in s.produced
    ensures var rows := Respond(s.rows, id, text, text in s.successes, s.now, hook);
            Inv(s.(rows := rows)) && id in rows.jobs && rows.jobs[id].Terminal()
  {
    if s.rows.jobs[id].Expired(s.now) {
      FinishPlain(s, id, Lost(RecoveryUnavailable), hook);
    } else {
      FinishKeeps(s, id, Outcome(if text in s.successes then Succeeded else Failed, Some(text), None), hook);
    }
  }

  // An outcome without a response, and not that of a missing receipt.
  lemma FinishPlain(s: State, id: Id, o: Outcome, hook: bool)
    requires Inv(s) && o.response.None? && o.error != Some(ReceiptMissing)
    requires o.status.Failed? || o.status.Unknown?
    ensures Inv(s.(rows := Finish(s.rows, id, o, hook)))
    ensures id in s.rows.jobs ==> Finish(s.rows, id, o, hook).jobs[id].Terminal()
  {
    FinishKeeps(s, id, o, hook);
  }

  // Settled, and not waited for any more.
  function Forgotten(s: State, id: Id, o: Outcome, hook: bool): State {
    s.(rows := Finish(s.rows, id, o, hook), gateway := s.gateway.(pending := s.gateway.pending - {id}))
  }

  lemma FinishPending(s: State, id: Id, o: Outcome, hook: bool)
    requires Inv(s) && OutcomeOk(s, id, o)
    ensures Inv(Forgotten(s, id, o, hook))
  {
    FinishKeeps(s, id, o, hook);
    var t := s.(rows := Finish(s.rows, id, o, hook));
    PendingWithout(t, id);
    assert Forgotten(s, id, o, hook) == t.(gateway := t.gateway.(pending := t.gateway.pending - {id}));
  }

  lemma TakeResponse(s: State, id: Id, text: Text, hook: bool, acknowledges: bool)
    requires Inv(s) && s.gateway.up && Pinned(s.rows.jobs, id, s.gateway.generation)
    requires Product(s.gateway.generation, id, text) in s.produced
    ensures var u := s.(rows := Respond(s.rows, id, text, text in s.successes, s.now, hook),
                        gateway := s.gateway.(pending := s.gateway.pending - {id}));
            Inv(if acknowledges then ToDaemonSent(u, Acknowledge(id, s.gateway.generation)) else SessionEnds(u))
  {
    RespondKeeps(s, id, text, hook);
    var t := s.(rows := Respond(s.rows, id, text, text in s.successes, s.now, hook));
    PendingWithout(t, id);
    var u := t.(gateway := s.gateway.(pending := s.gateway.pending - {id}));
    if acknowledges {
      SendDown(u, Acknowledge(id, s.gateway.generation));
    } else {
      SessionEndKeeps(u);
    }
  }

  lemma TakeMissing(s: State, id: Id, hook: bool)
    requires Inv(s) && Unseen(s.rows.jobs, s.ran, Asked(s.toDaemon), id)
    ensures Inv(Forgotten(s, id, Lost(ReceiptMissing), hook))
  {
    FinishPending(s, id, Lost(ReceiptMissing), hook);
  }

  lemma FirstUp(s: State)
    requires Inv(s) && s.toGateway != []
    ensures UpMessage(s.rows.jobs, s.ran, Asked(s.toDaemon), s.produced, s.gateway.generation, s.toGateway[0])
  {
    assert s.toGateway[0] in s.toGateway;
  }

  lemma GatewayTakesKeeps(s: State, hook: bool, acknowledges: bool)
    requires Inv(s) && s.toGateway != [] && s.gateway.up
    ensures Inv(GatewayTakes(s, hook, acknowledges))
  {
    var t := s.(toGateway := s.toGateway[1..]);
    FewerUp(s, s.toGateway[1..]);
    FirstUp(s);
    match s.toGateway[0]
    case Response(id, generation, text) => TakeResponse(t, id, text, hook, acknowledges);
    case Accepted(id, generation) => AcceptKeeps(t, id, s.gateway.generation);
    case Missing(id, generation) => TakeMissing(t, id, hook);
  }

  lemma ConnectKeeps(s: State)
    requires Inv(s) && !s.gateway.up && !s.daemon.up
    ensures Inv(Step(s, Connect))
  {
  }

  lemma StaleWithout(s: State, id: Id)
    requires Inv(s) && (id in s.rows.jobs ==> !s.rows.jobs[id].InFlight())
    ensures Inv(s.(gateway := s.gateway.(stale := s.gateway.stale - {id})))
  {
  }

  lemma SettleStaleKeeps(s: State, id: Id, hook: bool)
    requires Inv(s)
    ensures Inv(Step(s, SettleStale(id, hook)))
  {
    if s.gateway.up && !s.gateway.revoked && id in s.gateway.stale {
      var o := Lost(s.gateway.stale[id]);
      FinishKeeps(s, id, o, hook);
      StaleWithout(s.(rows := Finish(s.rows, id, o, hook)), id);
    }
    SettleStaleIs(s, id, hook);
  }

  lemma SettleStaleIs(s: State, id: Id, hook: bool)
    ensures Step(s, SettleStale(id, hook)) ==
              if !s.gateway.up || s.gateway.revoked || id !in s.gateway.stale then s
              else
                var t := s.(rows := Finish(s.rows, id, Lost(s.gateway.stale[id]), hook));
                t.(gateway := t.gateway.(stale := t.gateway.stale - {id}))
  {
  }

  lemma RevokeKeeps(s: State)
    requires Inv(s)
    ensures Inv(Step(s, Revoke))
  {
  }

  lemma RevokeOneKeeps(s: State, id: Id, hook: bool)
    requires Inv(s)
    ensures Inv(Step(s, RevokeOne(id, hook)))
  {
    if s.gateway.revoked && id in s.gateway.pending {
      FinishPending(s, id, Lost(ConnectionLost), hook);
      assert Step(s, RevokeOne(id, hook)) == Forgotten(s, id, Lost(ConnectionLost), hook);
    } else {
      assert Step(s, RevokeOne(id, hook)) == s;
    }
  }

  lemma RestartKeeps(s: State)
    requires Inv(s)
    ensures Inv(Step(s, DaemonRestarts))
  {
    ConnectionEndKeeps(s);
    RestartedKeeps(ConnectionEnds(s));
    RestartIs(s);
  }

  lemma RestartIs(s: State)
    ensures Step(s, DaemonRestarts) == Restarted(ConnectionEnds(s))
  {
  }

  function Restarted(s: State): State {
    s.(daemon := Daemon(false, s.next, Receipts.Daemon(map[], {}), {}), next := s.next + 1)
  }

  lemma NoReceipts()
    ensures Receipts.Inv(Receipts.Daemon(map[], {}))
  {
    assert Receipts.Pending(map[]) == {};
  }

  // A daemon that starts again, with nobody connected.
  lemma RestartedKeeps(s: State)
    requires Inv(s) && !s.daemon.up
    ensures Inv(Restarted(s))
  {
    NoReceipts();
    NextGrows(s.rows.jobs, s.next);
    FreshGeneration(s.rows.jobs, s.ran, s.produced, s.daemon.generation, s.next);
  }

  lemma NextGrows(jobs: Jobs, next: nat)
    requires RowsOk(jobs, next)
    ensures RowsOk(jobs, next + 1)
  {
  }

  lemma FreshGeneration(jobs: Jobs, ran: multiset<Id>, produced: set<Product>, generation: nat, next: nat)
    requires RowsOk(jobs, next) && RunsOk(jobs, ran, multiset{}, generation) && Receipts.Inv(Receipts.Daemon(map[], {}))
    ensures RunsOk(jobs, ran, multiset{}, next)
    ensures ReceiptsOk(jobs, ran, Receipts.Daemon(map[], {}), next, produced)
  {
    forall id: Id
      ensures RunOk(jobs, ran, multiset{}, next, id)
    {
      assert RunOk(jobs, ran, multiset{}, generation, id);
    }
  }

  // The row of a dispatch, and its place among the pending ones.
  lemma DispatchedKeeps(s: State, id: Id)
    requires Inv(s) && MayDispatch(s, id)
    ensures Inv(Dispatched(s, id))
  {
    var jobs, asked := s.rows.jobs, Asked(s.toDaemon);
    var later := Dispatched(s, id).rows.jobs;
    DispatchedRow(s, id);
    DispatchRows(jobs, later, s.next, s.ran, asked, s.daemon.generation, s.produced, id);
    DispatchCounts(jobs, later, id, s.gateway.pending);
    DispatchRuns(jobs, later, s.ran, asked, s.daemon.generation, id);
    DispatchReceipts(jobs, later, s.ran, asked, s.daemon.receipts, s.daemon.generation, s.produced, id);
    DispatchMessages(s, later, id);
    DispatchOutbox(s.rows, later, id);
    DispatchGateway(jobs, later, asked, s.gateway, id);
  }

  lemma DispatchedRow(s: State, id: Id)
    requires RowsOk(s.rows.jobs, s.next) && MayDispatch(s, id) && s.gateway.generation < s.next
    ensures var later := Dispatched(s, id).rows.jobs;
            DispatchRow(s.rows.jobs, later, id) && Pinned(later, id, s.gateway.generation) && RowOk(later[id], s.next)
  {
    assert RowOk(s.rows.jobs[id], s.next);
  }

  lemma DispatchRows(jobs: Jobs, later: Jobs, next: nat, ran: multiset<Id>, asked: multiset<Id>, generation: nat,
                     produced: set<Product>, id: Id)
    requires DispatchRow(jobs, later, id) && RowOk(later[id], next) && RowsOk(jobs, next)
    requires RunsOk(jobs, ran, asked, generation) && ResultsOk(jobs, ran, asked, produced) && ProductsOk(jobs, produced)
    ensures RowsOk(later, next) && ProductsOk(later, produced) && ResultsOk(later, ran, asked, produced)
  {
    assert RunOk(jobs, ran, asked, generation, id);
    forall other | other in later
      ensures ResultOk(later[other], other, ran, asked, produced)
    {
      if other != id {
        assert ResultOk(jobs[other], other, ran, asked, produced);
      }
    }
  }

  lemma DispatchReceipts(jobs: Jobs, later: Jobs, ran: multiset<Id>, asked: multiset<Id>, d: Receipts.Daemon,
                         generation: nat,
                         produced: set<Product>, id: Id)
    requires DispatchRow(jobs, later, id) && RunsOk(jobs, ran, asked, generation)
             && ReceiptsOk(jobs, ran, d, generation, produced)
    ensures ReceiptsOk(later, ran, d, generation, produced)
  {
    assert RunOk(jobs, ran, asked, generation, id);
  }

  lemma DispatchGateway(jobs: Jobs, later: Jobs, asked: multiset<Id>, g: Gateway, id: Id)
    requires DispatchRow(jobs, later, id) && GatewayOk(jobs, asked, g) && g.up
             && later[id].generation == Some(g.generation)
    ensures GatewayOk(later, asked, g.(pending := g.pending + {id}))
  {
  }

  ghost predicate DispatchRow(jobs: Jobs, later: Jobs, id: Id) {
    && id in jobs && id in later && jobs[id].status.Queued? && jobs[id].generation.None?
    && later == jobs[id := later[id]] && later[id].status.Dispatching? && later[id].generation.Some?
    && later[id].control == jobs[id].control
  }

  lemma DispatchCounts(jobs: Jobs, later: Jobs, id: Id, pending: set<Id>)
    requires DispatchRow(jobs, later, id) && CountsOk(jobs)
    requires forall other :: other in jobs && jobs[other].InFlight() ==> other in pending
    requires |pending| < MAX_PENDING_REQUESTS + RESERVED_CONTROL_REQUESTS
    requires |pending| >= MAX_PENDING_REQUESTS ==> jobs[id].control
    ensures CountsOk(later)
  {
    SubsetSize(InFlight(jobs), pending);
    SubsetSize(Ordinary(jobs), pending);
    assert InFlight(later) == InFlight(jobs) + {id};
    assert Ordinary(later) == if jobs[id].control then Ordinary(jobs) else Ordinary(jobs) + {id};
  }

  lemma DispatchRuns(jobs: Jobs, later: Jobs, ran: multiset<Id>, asked: multiset<Id>, generation: nat, id: Id)
    requires DispatchRow(jobs, later, id) && RunsOk(jobs, ran, asked, generation)
    ensures RunsOk(later, ran, asked, generation) && ran[id] == 0 && asked[id] == 0
  {
    assert RunOk(jobs, ran, asked, generation, id);
    forall other: Id
      ensures RunOk(later, ran, asked, generation, other)
    {
      assert RunOk(jobs, ran, asked, generation, other);
    }
  }

  lemma DispatchMessages(s: State, later: Jobs, id: Id)
    requires Inv(s) && DispatchRow(s.rows.jobs, later, id)
    ensures DownOk(later, Asked(s.toDaemon), s.daemon.generation, s.toDaemon)
    ensures UpOk(later, s.ran, Asked(s.toDaemon), s.produced, s.gateway.generation, s.toGateway)
  {
    var jobs, asked := s.rows.jobs, Asked(s.toDaemon);
    forall m | m in s.toDaemon
      ensures DownMessage(later, asked, s.daemon.generation, m)
    {
      assert DownMessage(jobs, asked, s.daemon.generation, m);
    }
    forall m | m in s.toGateway
      ensures UpMessage(later, s.ran, asked, s.produced, s.gateway.generation, m)
    {
      assert UpMessage(jobs, s.ran, asked, s.produced, s.gateway.generation, m);
    }
  }

  lemma DispatchOutbox(d: Rows, later: Jobs, id: Id)
    requires OutboxOk(d) && DispatchRow(d.jobs, later, id)
    ensures OutboxOk(d.(jobs := later))
  {
  }

  // The request of a job just dispatched, on its way.
  lemma SendRequest(s: State, id: Id, fingerprint: nat)
    requires Inv(s) && s.gateway.up && s.gateway.recovering == {}
    requires Pinned(s.rows.jobs, id, s.gateway.generation) && s.rows.jobs[id].InFlight()
    requires s.ran[id] == 0 && Asked(s.toDaemon)[id] == 0
    requires forall m :: m in s.toDaemon && m.Recover? ==> m.id != id
    requires forall m :: m in s.toGateway && m.Missing? ==> m.id != id
    ensures Inv(ToDaemonSent(s, Request(id, fingerprint)))
  {
    if s.daemon.up {
      var m := Request(id, fingerprint);
      var asked := Asked(s.toDaemon);
      AskedAppend(s.toDaemon, m);
      AskedMore(s.rows.jobs, s.ran, asked, s.daemon.generation, s.produced, id);
      AskedMoreMessages(s, id);
      var q := s.toDaemon + [m];
      assert forall x :: x in q ==> x in s.toDaemon || x == m;
    }
  }

  lemma AskedMore(jobs: Jobs, ran: multiset<Id>, asked: multiset<Id>, generation: nat, produced: set<Product>, id: Id)
    requires RunsOk(jobs, ran, asked, generation) && ResultsOk(jobs, ran, asked, produced)
    requires Pinned(jobs, id, generation) && ran[id] == 0 && asked[id] == 0 && jobs[id].error != Some(ReceiptMissing)
    ensures RunsOk(jobs, ran, asked + multiset{id}, generation) && ResultsOk(jobs, ran, asked + multiset{id}, produced)
  {
    forall other: Id
      ensures RunOk(jobs, ran, asked + multiset{id}, generation, other)
    {
      assert RunOk(jobs, ran, asked, generation, other);
    }
    forall other | other in jobs
      ensures ResultOk(jobs[other], other, ran, asked + multiset{id}, produced)
    {
      assert ResultOk(jobs[other], other, ran, asked, produced);
    }
  }

  lemma AskedMoreMessages(s: State, id: Id)
    requires Inv(s)
    requires forall m :: m in s.toDaemon && m.Recover? ==> m.id != id
    requires forall m :: m in s.toGateway && m.Missing? ==> m.id != id
    ensures var more := Asked(s.toDaemon) + multiset{id};
            && DownOk(s.rows.jobs, more, s.daemon.generation, s.toDaemon)
            && UpOk(s.rows.jobs, s.ran, more, s.produced, s.gateway.generation, s.toGateway)
  {
    var asked := Asked(s.toDaemon);
    forall m | m in s.toDaemon
      ensures DownMessage(s.rows.jobs, asked + multiset{id}, s.daemon.generation, m)
    {
      assert DownMessage(s.rows.jobs, asked, s.daemon.generation, m);
    }
    forall m | m in s.toGateway
      ensures UpMessage(s.rows.jobs, s.ran, asked + multiset{id}, s.produced, s.gateway.generation, m)
    {
      assert UpMessage(s.rows.jobs, s.ran, asked, s.produced, s.gateway.generation, m);
    }
  }

  // No message speaks of a job that was not dispatched.
  lemma Unmentioned(s: State, id: Id)
    requires Inv(s) && !WasDispatched(s.rows.jobs, id)
    ensures forall m :: m in s.toDaemon && m.Recover? ==> m.id != id
    ensures forall m :: m in s.toGateway && m.Missing? ==> m.id != id
    ensures s.ran[id] == 0 && Asked(s.toDaemon)[id] == 0
  {
    assert RunOk(s.rows.jobs, s.ran, Asked(s.toDaemon), s.daemon.generation, id);
    forall m | m in s.toDaemon && m.Recover?
      ensures m.id != id
    {
      assert DownMessage(s.rows.jobs, Asked(s.toDaemon), s.daemon.generation, m);
    }
    forall m | m in s.toGateway && m.Missing?
      ensures m.id != id
    {
      assert UpMessage(s.rows.jobs, s.ran, Asked(s.toDaemon), s.produced, s.gateway.generation, m);
    }
  }

  lemma SendDispatched(s: State, id: Id)
    requires Inv(s) && MayDispatch(s, id)
    ensures Inv(ToDaemonSent(Dispatched(s, id), Request(id, s.rows.jobs[id].fingerprint)))
  {
    DispatchedKeeps(s, id);
    assert RowOk(s.rows.jobs[id], s.next);
    Unmentioned(s, id);
    SendRequest(Dispatched(s, id), id, s.rows.jobs[id].fingerprint);
  }

  lemma DispatchKeeps(s: State, id: Id, arrives: bool)
    requires Inv(s)
    ensures Inv(Step(s, Dispatch(id, arrives)))
  {
    if MayDispatch(s, id) {
      if arrives {
        SendDispatched(s, id);
      } else {
        DispatchedKeeps(s, id);
        SessionEndKeeps(Dispatched(s, id));
      }
    }
  }

  lemma RecoveringWithout(s: State, id: Id)
    requires Inv(s)
    ensures Inv(s.(gateway := s.gateway.(recovering := s.gateway.recovering - {id})))
  {
  }

  lemma SendRecoverKeeps(s: State, id: Id)
    requires Inv(s)
    ensures Inv(Step(s, SendRecover(id)))
  {
    if s.gateway.Ready() && id in s.gateway.recovering {
      var t := s.(gateway := s.gateway.(recovering := s.gateway.recovering - {id}));
      RecoveringWithout(s, id);
      SendDown(t, Recover(id, t.gateway.generation));
    }
    SendRecoverIs(s, id);
  }

  lemma SendRecoverIs(s: State, id: Id)
    ensures Step(s, SendRecover(id)) ==
              if !s.gateway.Ready() || id !in s.gateway.recovering then s
              else
                var t := s.(gateway := s.gateway.(recovering := s.gateway.recovering - {id}));
                if id in t.gateway.pending then ToDaemonSent(t, Recover(id, t.gateway.generation)) else t
  {
  }

  lemma HousekeepKeeps(s: State, id: Id, hook: bool)
    requires Inv(s)
    ensures Inv(Step(s, Housekeep(id, hook)))
  {
    if id in s.rows.jobs && Housekept(s, id, hook) != s.rows {
      FinishPlain(s, id, HousekeepOutcome(s.rows.jobs[id]), hook);
    }
    HousekeepIs(s, id, hook);
  }

  function HousekeepOutcome(j: Job): Outcome {
    if j.status.Queued? then Outcome(Failed, None, Some(DispatchTimeout)) else Lost(RecoveryUnavailable)
  }

  lemma HousekeepIs(s: State, id: Id, hook: bool)
    ensures Step(s, Housekeep(id, hook)) ==
              if id !in s.rows.jobs || Housekept(s, id, hook) == s.rows then s
              else s.(rows := Finish(s.rows, id, HousekeepOutcome(s.rows.jobs[id]), hook))
  {
  }

  lemma ResendKeeps(s: State, id: Id)
    requires Inv(s)
    ensures Inv(Step(s, Resend(id)))
  {
    var table := s.daemon.receipts.table;
    if s.daemon.up && id !in s.daemon.sent && id in table && table[id].response.Some? {
      SentForgets(s, s.daemon.sent + {id});
      SendUp(s.(daemon := s.daemon.(sent := s.daemon.sent + {id})),
             Response(id, s.daemon.generation, table[id].response.value));
    }
  }

  lemma SubmitStep(s: State, id: Id, control: bool, fingerprint: nat)
    requires Inv(s)
    ensures Inv(Step(s, Submit(id, control, fingerprint)))
  {
    if id !in s.rows.jobs {
      SubmitKeeps(s, id, Job(Queued, None, None, None, None, s.now, control, fingerprint, false));
    }
  }

  lemma LoseToDaemonStep(s: State)
    requires Inv(s)
    ensures Inv(Step(s, LoseToDaemon))
  {
    if s.toDaemon != [] {
      LoseDown(s);
    }
  }

  lemma LoseToGatewayStep(s: State)
    requires Inv(s)
    ensures Inv(Step(s, LoseToGateway))
  {
    if s.toGateway != [] {
      FewerUp(s, s.toGateway[..|s.toGateway| - 1]);
    }
  }

  lemma GatewayRestartStep(s: State)
    requires Inv(s)
    ensures Inv(Step(s, GatewayRestarts))
  {
    EndsAre(s);
    EndedKeeps(s, None);
  }

  lemma RevokeEndStep(s: State)
    requires Inv(s)
    ensures Inv(Step(s, RevokeEnds))
  {
    GatewayDown(s);
  }

  lemma GatewayReceivesStep(s: State, hook: bool, acknowledges: bool)
    requires Inv(s)
    ensures Inv(Step(s, GatewayReceives(hook, acknowledges)))
  {
    if s.gateway.up && s.toGateway != [] {
      GatewayTakesKeeps(s, hook, acknowledges);
    }
  }

  lemma DaemonReceivesStep(s: State, busy: bool, malformed: bool, text: Text)
    requires Inv(s)
    ensures Inv(Step(s, DaemonReceives(busy, malformed, text)))
  {
    if s.daemon.up && s.toDaemon != [] {
      DaemonTakesKeeps(s, busy, malformed, text);
    }
  }

  lemma CompleteIs(s: State, id: Id, text: Text)
    ensures var receipts := Receipts.Step(s.daemon.receipts, Receipts.Call.Complete(id, text));
            Step(s, Complete(id, text)) ==
              if id in s.daemon.receipts.tasks && |text| <= Receipts.MAX_FRAME_BYTES then
                s.(daemon := s.daemon.(receipts := receipts),
                   produced := s.produced + {Product(s.daemon.generation, id, text)})
              else s
  {
  }

  lemma CompleteStep(s: State, id: Id, text: Text)
    requires Inv(s)
    ensures Inv(Step(s, Complete(id, text)))
  {
    if id in s.daemon.receipts.tasks && |text| <= Receipts.MAX_FRAME_BYTES {
      CompleteKeeps(s, id, text);
    }
    CompleteIs(s, id, text);
  }

  lemma RefuseIs(s: State, id: Id, hook: bool)
    ensures var t := Step(s, RefuseDispatch(id, hook));
            t == s || t == s.(rows := Finish(s.rows, id, Outcome(Failed, None, Some(DispatchRefused)), hook))
  {
  }

  lemma RefuseStep(s: State, id: Id, hook: bool)
    requires Inv(s)
    ensures Inv(Step(s, RefuseDispatch(id, hook)))
  {
    RefuseIs(s, id, hook);
    FinishPlain(s, id, Outcome(Failed, None, Some(DispatchRefused)), hook);
  }

  lemma ConnectStep(s: State)
    requires Inv(s)
    ensures Inv(Step(s, Connect))
  {
    if !s.gateway.up && !s.daemon.up {
      ConnectKeeps(s);
    }
  }

  lemma TickStep(s: State, seconds: nat)
    requires Inv(s)
    ensures Inv(Step(s, Tick(seconds)))
  {
  }

  lemma RemoveStep(s: State)
    requires Inv(s)
    ensures Inv(Step(s, RemoveMachine))
  {
  }

  // What the steps are that end a session.
  lemma EndsAre(s: State)
    ensures Step(s, GatewayDrops) == s || Step(s, GatewayDrops) == SessionEnds(s)
    ensures Step(s, GatewayRestarts) == Ended(s, None)
  {
  }

  lemma GatewayDropStep(s: State)
    requires Inv(s)
    ensures Inv(Step(s, GatewayDrops))
  {
    EndsAre(s);
    SessionEndKeeps(s);
  }

  lemma DaemonDropStep(s: State)
    requires Inv(s)
    ensures Inv(Step(s, DaemonDrops))
  {
    ConnectionEndKeeps(s);
    DaemonDropIs(s);
  }

  lemma DaemonDropIs(s: State)
    ensures Step(s, DaemonDrops) == ConnectionEnds(s)
  {
  }

  // Steps of the gateway and its database.
  predicate ByGateway(a: Action) {
    a.Submit? || a.SettleStale? || a.GatewayDrops? || a.GatewayRestarts? || a.Revoke? || a.RevokeOne? || a.RevokeEnds?
    || a.Dispatch? || a.RefuseDispatch? || a.SendRecover? || a.GatewayReceives? || a.Housekeep?
  }

  lemma GatewayStepKeepsInv(s: State, a: Action)
    requires Inv(s) && ByGateway(a)
    ensures Inv(Step(s, a))
  {
    match a
    case Submit(id, control, fingerprint) => SubmitStep(s, id, control, fingerprint);
    case SettleStale(id, hook) => SettleStaleKeeps(s, id, hook);
    case GatewayDrops => GatewayDropStep(s);
    case GatewayRestarts => GatewayRestartStep(s);
    case Revoke => RevokeKeeps(s);
    case RevokeOne(id, hook) => RevokeOneKeeps(s, id, hook);
    case RevokeEnds => RevokeEndStep(s);
    case Dispatch(id, arrives) => DispatchKeeps(s, id, arrives);
    case RefuseDispatch(id, hook) => RefuseStep(s, id, hook);
    case SendRecover(id) => SendRecoverKeeps(s, id);
    case GatewayReceives(hook, acknowledges) => GatewayReceivesStep(s, hook, acknowledges);
    case Housekeep(id, hook) => HousekeepKeeps(s, id, hook);
  }

  lemma OtherStepKeepsInv(s: State, a: Action)
    requires Inv(s) && !ByGateway(a)
    ensures Inv(Step(s, a))
  {
    match a
    case Tick(seconds) => TickStep(s, seconds);
    case RemoveMachine => RemoveStep(s);
    case Connect => ConnectStep(s);
    case DaemonDrops => DaemonDropStep(s);
    case DaemonRestarts => RestartKeeps(s);
    case LoseToDaemon => LoseToDaemonStep(s);
    case LoseToGateway => LoseToGatewayStep(s);
    case DaemonReceives(busy, malformed, text) => DaemonReceivesStep(s, busy, malformed, text);
    case Complete(id, text) => CompleteStep(s, id, text);
    case Resend(id) => ResendKeeps(s, id);
  }

  /** Every step keeps the invariant. */
  lemma StepKeepsInv(s: State, a: Action)
    requires Inv(s)
    ensures Inv(Step(s, a))
  {
    if ByGateway(a) {
      GatewayStepKeepsInv(s, a);
    } else {
      OtherStepKeepsInv(s, a);
    }
  }
}
