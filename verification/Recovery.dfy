/** Request recovery between the gateway and one daemon, as steps on one state: the job rows and
    the outbox (jobs.rs), the gateway's session (connections.rs), the daemon's receipts and tasks
    (connection.rs, receipts.rs), and the two directions of their connection. Every session has
    negotiated recovery. A step that is not enabled changes nothing. */
module Recovery {
  import Receipts
  import opened Wrappers

  type Id = string
  type Text = Receipts.Text

  // Seconds.
  const RECOVERY_WINDOW: nat := 24 * 60 * 60
  const DISPATCH_TIMEOUT: nat := 30

  const MAX_PENDING_REQUESTS: nat := 32
  const RESERVED_CONTROL_REQUESTS: nat := 4

  datatype Status = Queued | Dispatching | Waiting | Succeeded | Failed | Unknown

  datatype Code =
    | DispatchRefused
    | DispatchTimeout
    | RecoveryUnavailable
    | RuntimeReplaced
    | ReceiptMissing
    | ConnectionLost

  // `control`: a termination, which may use the reserved places. `hooked`: the owner had a
  // callback when the job was settled.
  datatype Job = Job(
    status: Status, generation: Option<nat>, deadline: Option<nat>,
    response: Option<Text>, error: Option<Code>,
    created: nat, control: bool, fingerprint: nat, hooked: bool)
  {
    predicate Terminal() {
      status.Succeeded? || status.Failed? || status.Unknown?
    }

    predicate InFlight() {
      status.Dispatching? || status.Waiting?
    }

    predicate Expired(now: nat) {
      deadline.Some? && deadline.value <= now
    }
  }

  datatype Event = Event(id: Id, status: Status, response: Option<Text>, error: Option<Code>)

  datatype Rows = Rows(jobs: map<Id, Job>, outbox: multiset<Event>)

  datatype Outcome = Outcome(status: Status, response: Option<Text>, error: Option<Code>)

  function Lost(code: Code): Outcome {
    Outcome(Unknown, None, Some(code))
  }

  function Settled(j: Job, o: Outcome, hook: bool): Job {
    j.(status := o.status, response := o.response, error := o.error, deadline := None, hooked := hook)
  }

  // `finish_tx`: only a job that is not settled yet, with its outbox row in the same transaction.
  function Finish(d: Rows, id: Id, o: Outcome, hook: bool): Rows {
    if id !in d.jobs || d.jobs[id].Terminal() then d
    else
      Rows(d.jobs[id := Settled(d.jobs[id], o, hook)],
           if hook then d.outbox + multiset{Event(id, o.status, o.response, o.error)} else d.outbox)
  }

  // `disconnected`, and for every generation `recover_inflight`: the recovery window starts once.
  function Windowed(j: Job, generation: Option<nat>, now: nat): Job {
    if j.InFlight() && (generation.None? || j.generation == generation) && j.deadline.None? then
      j.(deadline := Some(now + RECOVERY_WINDOW))
    else j
  }

  function StartWindows(jobs: map<Id, Job>, generation: Option<nat>, now: nat): map<Id, Job> {
    map id | id in jobs :: Windowed(jobs[id], generation, now)
  }

  // `response`.
  function Respond(d: Rows, id: Id, text: Text, success: bool, now: nat, hook: bool): Rows
    requires id in d.jobs
  {
    if d.jobs[id].Expired(now) then Finish(d, id, Lost(RecoveryUnavailable), hook)
    else Finish(d, id, Outcome(if success then Succeeded else Failed, Some(text), None), hook)
  }

  // `accepted`.
  function Accept(jobs: map<Id, Job>, id: Id, generation: nat, now: nat): map<Id, Job> {
    if id in jobs && jobs[id].InFlight() && jobs[id].generation == Some(generation) && !jobs[id].Expired(now) then
      jobs[id := jobs[id].(status := Waiting, deadline := None)]
    else jobs
  }

  // The jobs `reconnect` goes on waiting for, and those it settles.
  function Resumed(jobs: map<Id, Job>, generation: nat, now: nat): set<Id> {
    set id | id in jobs && jobs[id].InFlight() && !jobs[id].Expired(now) && jobs[id].generation == Some(generation)
  }

  function Abandoned(jobs: map<Id, Job>, generation: nat, now: nat): map<Id, Code> {
    map id | id in jobs && jobs[id].InFlight() && (jobs[id].Expired(now) || jobs[id].generation != Some(generation))
      :: if jobs[id].Expired(now) then RecoveryUnavailable else RuntimeReplaced
  }

  datatype ToDaemon =
    | Request(id: Id, fingerprint: nat)
    | Recover(id: Id, generation: nat)
    | Acknowledge(id: Id, generation: nat)

  datatype ToGateway =
    | Response(id: Id, generation: nat, text: Text)
    | Accepted(id: Id, generation: nat)
    | Missing(id: Id, generation: nat)

  // The session of the machine. `stale`: what `reconnect` has still to settle; the session takes
  // part in the protocol only after that. `revoked`: it is ending, one pending job at a time.
  datatype Gateway = Gateway(
    up: bool, revoked: bool, generation: nat, pending: set<Id>, recovering: set<Id>, stale: map<Id, Code>)
  {
    predicate Ready() {
      up && !revoked && stale == map[]
    }
  }

  const DOWN := Gateway(false, false, 0, {}, {}, map[])

  // The daemon process. `receipts` has the table and the running request tasks.
  datatype Daemon = Daemon(up: bool, generation: nat, receipts: Receipts.Daemon, sent: set<Id>)

  // A response the daemon made for a request, under its generation.
  datatype Product = Product(generation: nat, id: Id, text: Text)

  // `next`: generations below it have been used. `ran`: how often a request reached the
  // dispatcher. `successes`: the responses that report success.
  datatype State = State(
    rows: Rows, now: nat, removed: bool,
    gateway: Gateway, daemon: Daemon, toDaemon: seq<ToDaemon>, toGateway: seq<ToGateway>,
    next: nat, ran: multiset<Id>, produced: set<Product>, successes: set<Text>)

  datatype Action =
    | Tick(seconds: nat)
    | Submit(id: Id, control: bool, fingerprint: nat)
    | RemoveMachine
    | Connect
    | SettleStale(id: Id, hook: bool)
    | GatewayDrops
    | GatewayRestarts
    | Revoke
    | RevokeOne(id: Id, hook: bool)
    | RevokeEnds
    | DaemonDrops
    | DaemonRestarts
    | LoseToDaemon
    | LoseToGateway
    | Dispatch(id: Id, arrives: bool)
    | RefuseDispatch(id: Id, hook: bool)
    | SendRecover(id: Id)
    | GatewayReceives(hook: bool, acknowledges: bool)
    | DaemonReceives(busy: bool, malformed: bool, text: Text)
    | Complete(id: Id, text: Text)
    | Resend(id: Id)
    | Housekeep(id: Id, hook: bool)

  // A message reaches the queue of a receiver that is up; another one will never read it.
  function ToDaemonSent(s: State, m: ToDaemon): State {
    if s.daemon.up then s.(toDaemon := s.toDaemon + [m]) else s
  }

  function ToGatewaySent(s: State, m: ToGateway): State {
    if s.gateway.up then s.(toGateway := s.toGateway + [m]) else s
  }

  function SessionEnds(s: State): State {
    s.(rows := s.rows.(jobs := StartWindows(s.rows.jobs, Some(s.gateway.generation), s.now)), gateway := DOWN,
       toGateway := [])
  }

  function ConnectionEnds(s: State): State {
    s.(daemon := s.daemon.(up := false, sent := {}), toDaemon := [])
  }

  function Dispatched(s: State, id: Id): State
    requires id in s.rows.jobs
  {
    var j := s.rows.jobs[id].(status := Dispatching, generation := Some(s.gateway.generation));
    s.(rows := s.rows.(jobs := s.rows.jobs[id := j]), gateway := s.gateway.(pending := s.gateway.pending + {id}))
  }

  // The places left: beyond 32 only terminations.
  predicate MayDispatch(s: State, id: Id) {
    && s.gateway.Ready() && s.gateway.recovering == {}
    && id in s.rows.jobs && s.rows.jobs[id].status.Queued?
    && |s.gateway.pending| < MAX_PENDING_REQUESTS + RESERVED_CONTROL_REQUESTS
    && (|s.gateway.pending| >= MAX_PENDING_REQUESTS ==> s.rows.jobs[id].control)
  }

  // `receipt_message`.
  function ReceiptMessage(d: Daemon, id: Id, generation: nat): ToGateway {
    if generation == d.generation && id in d.receipts.table then
      (if d.receipts.table[id].response.Some? then Response(id, d.generation, d.receipts.table[id].response.value)
       else Accepted(id, generation))
    else Missing(id, d.generation)
  }

  // A response without a receipt.
  function Rejected(s: State, id: Id, text: Text): State {
    ToGatewaySent(s.(produced := s.produced + {Product(s.daemon.generation, id, text)}),
                  Response(id, s.daemon.generation, text))
  }

  ghost function AcceptRequest(s: State, id: Id, fingerprint: nat, busy: bool, text: Text): State {
    match Receipts.Admitted(s.daemon.receipts.table, id, fingerprint, busy)
    case New =>
      var receipts := Receipts.Step(s.daemon.receipts, Receipts.Call.Accept(id, fingerprint, busy));
      ToGatewaySent(s.(daemon := s.daemon.(receipts := receipts), ran := s.ran + multiset{id}),
                    Accepted(id, s.daemon.generation))
    case Existing => ToGatewaySent(s, ReceiptMessage(s.daemon, id, s.daemon.generation))
    case Conflict => ConnectionEnds(s)
    case Full => Rejected(s, id, text)
  }

  // The daemon takes the first message.
  ghost function DaemonTakes(s: State, busy: bool, malformed: bool, text: Text): State
    requires s.toDaemon != []
  {
    var t := s.(toDaemon := s.toDaemon[1..]);
    match s.toDaemon[0]
    case Request(id, fingerprint) =>
      if malformed then Rejected(t, id, text) else AcceptRequest(t, id, fingerprint, busy, text)
    case Recover(id, generation) =>
      ToGatewaySent(t.(daemon := t.daemon.(sent := t.daemon.sent - {id})), ReceiptMessage(t.daemon, id, generation))
    case Acknowledge(id, generation) =>
      if generation != t.daemon.generation then t
      else
        var receipts := Receipts.Step(t.daemon.receipts, Receipts.Call.Acknowledge(id));
        t.(daemon := t.daemon.(receipts := receipts, sent := t.daemon.sent - {id}))
  }

  // The gateway takes the first message; one that does not fit ends the session.
  function GatewayTakes(s: State, hook: bool, acknowledges: bool): State
    requires s.toGateway != []
  {
    var t := s.(toGateway := s.toGateway[1..]);
    var g := t.gateway.generation;
    match s.toGateway[0]
    case Response(id, generation, text) =>
      if generation != g || id !in t.rows.jobs || t.rows.jobs[id].generation != Some(g) then SessionEnds(t)
      else
        var u := t.(rows := Respond(t.rows, id, text, text in t.successes, t.now, hook),
                    gateway := t.gateway.(pending := t.gateway.pending - {id}));
        if acknowledges then ToDaemonSent(u, Acknowledge(id, g)) else SessionEnds(u)
    case Accepted(id, generation) =>
      if generation != g then SessionEnds(t)
      else if id in t.gateway.pending then t.(rows := t.rows.(jobs := Accept(t.rows.jobs, id, g, t.now)))
      else t
    case Missing(id, generation) =>
      if generation != g then SessionEnds(t)
      else if id in t.gateway.pending then
        t.(rows := Finish(t.rows, id, Lost(ReceiptMissing), hook),
           gateway := t.gateway.(pending := t.gateway.pending - {id}))
      else t
  }

  // `housekeeping_once`, for one job.
  function Housekept(s: State, id: Id, hook: bool): Rows
    requires id in s.rows.jobs
  {
    var j := s.rows.jobs[id];
    if j.status.Queued? && j.created + DISPATCH_TIMEOUT < s.now then
      Finish(s.rows, id, Outcome(Failed, None, Some(DispatchTimeout)), hook)
    else if j.InFlight() && (j.Expired(s.now) || s.removed) then Finish(s.rows, id, Lost(RecoveryUnavailable), hook)
    else s.rows
  }

  ghost function Step(s: State, a: Action): State {
    match a
    case Tick(seconds) => s.(now := s.now + seconds)
    case Submit(id, control, fingerprint) =>
      if id in s.rows.jobs then s
      else
        var j := Job(Queued, None, None, None, None, s.now, control, fingerprint, false);
        s.(rows := s.rows.(jobs := s.rows.jobs[id := j]))
    case RemoveMachine => s.(removed := true)
    case Connect =>
      if s.gateway.up || s.daemon.up then s
      else
        var g, jobs := s.daemon.generation, s.rows.jobs;
        var resumed := Resumed(jobs, g, s.now);
        s.(gateway := Gateway(true, false, g, resumed, resumed, Abandoned(jobs, g, s.now)),
           daemon := s.daemon.(up := true, sent := {}), toDaemon := [], toGateway := [])
    case SettleStale(id, hook) =>
      if !s.gateway.up || s.gateway.revoked || id !in s.gateway.stale then s
      else
        s.(rows := Finish(s.rows, id, Lost(s.gateway.stale[id]), hook),
           gateway := s.gateway.(stale := s.gateway.stale - {id}))
    case GatewayDrops => if !s.gateway.up || s.gateway.revoked then s else SessionEnds(s)
    case GatewayRestarts =>
      s.(rows := s.rows.(jobs := StartWindows(s.rows.jobs, None, s.now)), gateway := DOWN, toGateway := [])
    case Revoke =>
      if !s.gateway.up || s.gateway.revoked then s
      else
        s.(gateway := s.gateway.(revoked := true, recovering := {}, stale := map[],
                                 pending := if s.gateway.stale == map[] then s.gateway.pending else {}),
           toGateway := [])
    case RevokeOne(id, hook) =>
      if !s.gateway.revoked || id !in s.gateway.pending then s
      else
        s.(rows := Finish(s.rows, id, Lost(ConnectionLost), hook),
           gateway := s.gateway.(pending := s.gateway.pending - {id}))
    case RevokeEnds => if !s.gateway.revoked || s.gateway.pending != {} then s else s.(gateway := DOWN, toGateway := [])
    case DaemonDrops => ConnectionEnds(s)
    case DaemonRestarts =>
      s.(daemon := Daemon(false, s.next, Receipts.Daemon(map[], {}), {}), toDaemon := [], next := s.next + 1)
    case LoseToDaemon =>
      if s.gateway.up || s.toDaemon == [] then s else s.(toDaemon := s.toDaemon[..|s.toDaemon| - 1])
    case LoseToGateway =>
      if s.daemon.up || s.toGateway == [] then s else s.(toGateway := s.toGateway[..|s.toGateway| - 1])
    case Dispatch(id, arrives) =>
      if !MayDispatch(s, id) then s
      else if arrives then ToDaemonSent(Dispatched(s, id), Request(id, s.rows.jobs[id].fingerprint))
      else SessionEnds(Dispatched(s, id))
    case RefuseDispatch(id, hook) =>
      if !s.gateway.Ready() || id !in s.rows.jobs || !s.rows.jobs[id].status.Queued? then s
      else s.(rows := Finish(s.rows, id, Outcome(Failed, None, Some(DispatchRefused)), hook))
    case SendRecover(id) =>
      if !s.gateway.Ready() || id !in s.gateway.recovering then s
      else
        var t := s.(gateway := s.gateway.(recovering := s.gateway.recovering - {id}));
        if id in t.gateway.pending then ToDaemonSent(t, Recover(id, t.gateway.generation)) else t
    case GatewayReceives(hook, acknowledges) =>
      if !s.gateway.Ready() || s.toGateway == [] then s else GatewayTakes(s, hook, acknowledges)
    case DaemonReceives(busy, malformed, text) =>
      if !s.daemon.up || s.toDaemon == [] then s else DaemonTakes(s, busy, malformed, text)
    case Complete(id, text) =>
      if id !in s.daemon.receipts.tasks || |text| > Receipts.MAX_FRAME_BYTES then s
      else
        s.(daemon := s.daemon.(receipts := Receipts.Step(s.daemon.receipts, Receipts.Call.Complete(id, text))),
           produced := s.produced + {Product(s.daemon.generation, id, text)})
    case Resend(id) =>
      var table := s.daemon.receipts.table;
      if !s.daemon.up || id in s.daemon.sent || id !in table || table[id].response.None? then s
      else
        ToGatewaySent(s.(daemon := s.daemon.(sent := s.daemon.sent + {id})),
                      Response(id, s.daemon.generation, table[id].response.value))
    case Housekeep(id, hook) => if id !in s.rows.jobs then s else s.(rows := Housekept(s, id, hook))
  }

  ghost function Run(s: State, actions: seq<Action>): State
    decreases |actions|
  {
    if actions == [] then s else Run(Step(s, actions[0]), actions[1..])
  }

  // No jobs, no receipts, nobody connected.
  ghost predicate Initial(s: State) {
    && s.rows == Rows(map[], multiset{}) && s.gateway == DOWN
    && !s.daemon.up && s.daemon.receipts == Receipts.Daemon(map[], {}) && s.daemon.sent == {}
    && s.daemon.generation < s.next
    && s.toDaemon == [] && s.toGateway == [] && s.ran == multiset{} && s.produced == {}
  }
}
