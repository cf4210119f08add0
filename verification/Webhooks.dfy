/** Webhook delivery leases (webhooks.rs): one delivery row with its attempt rows. Each method
    is one transaction on the locked row; workers may hold claims that have gone stale. Times
    are in milliseconds. */
module Webhooks {
  import opened Wrappers

  type Time = int
  type Token = nat

  const LEASE: Time := 60_000
  const DAY: Time := 86_400_000
  const MAX_ATTEMPTS: nat := 8

  datatype Status = Pending | Delivering | RetryWait | Delivered | Failed

  // What an attempt came to: answered with success, failed, or its lease ran out.
  datatype Outcome = Success(httpStatus: nat) | Failure(answered: Option<nat>) | LeaseExpired

  datatype Attempt = Attempt(number: nat, outcome: Option<Outcome>)
  datatype Lease = Lease(token: Token, expires: Time)

  // What a worker carries from `claim` to `finalize`.
  datatype Claim = Claim(token: Token, number: nat, cycleNumber: int, retryStarted: Time)

  // What sending the callback produced.
  datatype Reply = Reply(outcome: Outcome, retry: bool, retryAfter: Option<Time>)

  datatype Row = Row(
    status: Status, nextAttemptAt: Time, lease: Option<Lease>,
    retryFrom: nat, retryStarted: Time, attempts: seq<Attempt>)

  function Fresh(now: Time): Row {
    Row(Pending, now, None, 1, now, [])
  }

  predicate Runnable(row: Row, now: Time) {
    || ((row.status == Pending || row.status == RetryWait) && row.nextAttemptAt <= now)
    || (row.status == Delivering && row.lease.Some? && row.lease.value.expires <= now)
  }

  predicate LeaseValid(row: Row, token: Token, now: Time) {
    row.lease.Some? && row.lease.value.token == token && row.lease.value.expires > now
  }

  ghost predicate Numbered(attempts: seq<Attempt>) {
    forall i :: 0 <= i < |attempts| ==> attempts[i].number == i + 1
  }

  // The shape of the row: a lease exactly while delivering, attempts numbered 1..n, and the
  // one attempt without an outcome is the last, there exactly while delivering.
  ghost predicate Shape(row: Row) {
    && (row.lease.Some? <==> row.status == Delivering)
    && (row.status == Delivering ==> row.attempts != [])
    && Numbered(row.attempts)
    && (forall i :: 0 <= i < |row.attempts| ==>
          (row.attempts[i].outcome.None? <==> i == |row.attempts| - 1 && row.status == Delivering))
    && 1 <= row.retryFrom <= |row.attempts| + 1
    && |row.attempts| + 1 - row.retryFrom <= MAX_ATTEMPTS
    && (row.status == Delivered ==> row.attempts != [] && row.attempts[|row.attempts| - 1].outcome.value.Success?)
  }

  // The lease in force belongs to the last attempt of the current cycle.
  ghost predicate LeaseIsNewest(row: Row, issued: map<Token, Claim>) {
    row.lease.Some? ==>
      && row.lease.value.token in issued
      && issued[row.lease.value.token] ==
         Claim(row.lease.value.token, |row.attempts|, |row.attempts| + 1 - row.retryFrom, row.retryStarted)
  }

  ghost predicate Inv(row: Row, issued: map<Token, Claim>) {
    Shape(row) && LeaseIsNewest(row, issued)
  }

  // Attempts only get added, and an outcome once written stays.
  ghost predicate Extends(before: seq<Attempt>, after: seq<Attempt>) {
    && |before| <= |after|
    && forall i :: 0 <= i < |before| ==>
         before[i].number == after[i].number && (before[i].outcome.Some? ==> after[i] == before[i])
  }

  // Closing the attempt a lost lease left open.
  ghost function Closed(row: Row): seq<Attempt> {
    if row.status == Delivering && row.attempts != [] then
      row.attempts[|row.attempts| - 1 := Attempt(|row.attempts|, Some(LeaseExpired))]
    else row.attempts
  }

  ghost function AfterClaim(row: Row, token: Token, now: Time): (Row, Option<Claim>) {
    var closed := Closed(row);
    var number := |row.attempts| + 1;
    var cycle := number + 1 - row.retryFrom;
    if cycle > MAX_ATTEMPTS || row.retryStarted + DAY <= now then
      (row.(status := Failed, lease := None, attempts := closed), None)
    else
      (row.(status := Delivering, lease := Some(Lease(token, now + LEASE)),
            attempts := closed + [Attempt(number, None)]),
       Some(Claim(token, number, cycle, row.retryStarted)))
  }

  function Backoff(cycle: int): nat {
    var seconds := 30 * Pow2(if cycle <= 0 then 0 else cycle - 1);
    if seconds < 3600 then seconds else 3600
  }

  function Pow2(n: nat): nat {
    if n == 0 then 1 else 2 * Pow2(n - 1)
  }

  // `jitter` is the drawn share of the backoff, at least half of it and less than all of it.
  predicate Jitter(cycle: int, jitter: nat) {
    Backoff(cycle) * 500 <= jitter < Backoff(cycle) * 1000
  }

  function NextAttempt(reply: Reply, now: Time, jitter: nat): Time {
    if reply.retryAfter.Some? && reply.retryAfter.value > now + jitter then reply.retryAfter.value else now + jitter
  }

  function Verdict(claim: Claim, reply: Reply, next: Time): Status {
    if reply.outcome.Success? then Delivered
    else if reply.retry && claim.cycleNumber < MAX_ATTEMPTS && next < claim.retryStarted + DAY then RetryWait
    else Failed
  }

  ghost function AfterFinalize(row: Row, claim: Claim, reply: Reply, now: Time, jitter: nat): Row {
    if !LeaseValid(row, claim.token, now) || row.attempts == [] then row
    else
      var next := NextAttempt(reply, now, jitter);
      row.(attempts := row.attempts[|row.attempts| - 1 := Attempt(|row.attempts|, Some(reply.outcome))],
           status := Verdict(claim, reply, next), nextAttemptAt := next, lease := None)
  }

  class Delivery {
    var status: Status
    var nextAttemptAt: Time
    var lease: Option<Lease>
    var retryFrom: nat
    var retryStarted: Time
    var deliveredAt: Option<Time>
    var attempts: seq<Attempt>
    // Every claim handed out so far, by its token.
    ghost var issued: map<Token, Claim>

    ghost function Contents(): Row
      reads this
    {
      Row(status, nextAttemptAt, lease, retryFrom, retryStarted, attempts)
    }

    ghost predicate Valid()
      reads this
    {
      Inv(Contents(), issued)
    }

    constructor (now: Time)
      ensures Valid() && Contents() == Fresh(now) && issued == map[] && deliveredAt == None
    {
      status, nextAttemptAt, lease, retryFrom, retryStarted := Pending, now, None, 1, now;
      deliveredAt, attempts, issued := None, [], map[];
    }

    // UPDATE ... WHERE finished_at IS NULL.
    method CloseUnfinished()
      requires Shape(Contents())
      modifies this`attempts
      ensures attempts == Closed(old(Contents()))
    {
      ghost var before := attempts;
      for i := 0 to |attempts|
        invariant |attempts| == |before|
        invariant forall k :: i <= k < |before| ==> attempts[k] == before[k]
        invariant forall k :: 0 <= k < i ==> attempts[k] == Closed(old(Contents()))[k]
      {
        if attempts[i].outcome.None? {
          attempts := attempts[i := attempts[i].(outcome := Some(LeaseExpired))];
        }
      }
    }

    // SELECT COALESCE(max(attempt_number), 0) + 1.
    method NextNumber() returns (number: nat)
      requires Numbered(attempts)
      ensures number == |attempts| + 1
    {
      var highest := 0;
      for i := 0 to |attempts|
        invariant highest == i
      {
        if attempts[i].number > highest {
          highest := attempts[i].number;
        }
      }
      return highest + 1;
    }

    /** Take a runnable delivery: close what a lost lease left open, then either open the next
        attempt of the cycle under a new lease or give the delivery up. */
    method ClaimNext(token: Token, now: Time) returns (claim: Option<Claim>)
      requires Valid() && token !in issued
      modifies this
      ensures Valid()
      ensures if Runnable(old(Contents()), now)
              then (Contents(), claim) == AfterClaim(old(Contents()), token, now)
              else claim == None && Contents() == old(Contents())
      ensures claim.Some? ==>
                1 <= claim.value.cycleNumber <= MAX_ATTEMPTS && issued == old(issued)[token := claim.value]
      ensures claim.None? ==> issued == old(issued)
    {
      if !((status == Pending || status == RetryWait) && nextAttemptAt <= now)
         && !(status == Delivering && lease.value.expires <= now) {
        return None;
      }
      ghost var row := Contents();
      ClaimKeepsInv(row, issued, token, now);
      CloseUnfinished();
      var number := NextNumber();
      var cycle := number + 1 - retryFrom;
      if cycle > MAX_ATTEMPTS || retryStarted + DAY <= now {
        status, lease := Failed, None;
        return None;
      }
      status, lease := Delivering, Some(Lease(token, now + LEASE));
      attempts := attempts + [Attempt(number, None)];
      var c := Claim(token, number, cycle, retryStarted);
      issued := issued[token := c];
      return Some(c);
    }

    /** Record what a claimed attempt came to. Any claim ever issued may arrive here: one whose
        lease has expired or been taken over changes nothing. */
    method Finalize(claim: Claim, reply: Reply, now: Time, jitter: nat)
      requires Valid() && claim.token in issued && issued[claim.token] == claim
      requires Jitter(claim.cycleNumber, jitter) && reply.outcome != LeaseExpired
      modifies this
      ensures Valid() && issued == old(issued)
      ensures Contents() == AfterFinalize(old(Contents()), claim, reply, now, jitter)
      ensures deliveredAt == if LeaseValid(old(Contents()), claim.token, now) && reply.outcome.Success?
                             then Some(now) else old(deliveredAt)
    {
      if lease.None? || lease.value.token != claim.token || lease.value.expires <= now {
        return;
      }
      FinalizeKeepsInv(Contents(), issued, claim, reply, now, jitter);
      for i := 0 to |attempts|
        modifies this`attempts
        invariant |attempts| == |old(attempts)|
        invariant forall k :: 0 <= k < |attempts| ==>
                    attempts[k] == if k < i && k + 1 == claim.number then Attempt(k + 1, Some(reply.outcome))
                      else old(attempts)[k]
      {
        if attempts[i].number == claim.number {
          attempts := attempts[i := attempts[i].(outcome := Some(reply.outcome))];
        }
      }
      assert attempts == old(attempts)[claim.number - 1 := Attempt(claim.number, Some(reply.outcome))];
      var next := NextAttempt(reply, now, jitter);
      status := Verdict(claim, reply, next);
      nextAttemptAt := next;
      lease := None;
      if status == Delivered {
        deliveredAt := Some(now);
      }
    }

    /** Start a new retry cycle after the last attempt, once the previous cycle has ended. */
    method Redeliver(now: Time) returns (accepted: bool)
      requires Valid()
      modifies this
      ensures Valid() && issued == old(issued) && deliveredAt == old(deliveredAt)
      ensures accepted == (old(status) == Delivered || old(status) == Failed)
      ensures Contents() == if accepted then Restarted(old(Contents()), now) else old(Contents())
    {
      if status != Delivered && status != Failed {
        return false;
      }
      var number := NextNumber();
      status, nextAttemptAt, retryStarted := Pending, now, now;
      retryFrom := number;
      return true;
    }
  }

  ghost function Restarted(row: Row, now: Time): Row {
    row.(status := Pending, nextAttemptAt := now, retryStarted := now, retryFrom := |row.attempts| + 1)
  }

  lemma ClaimKeepsInv(row: Row, issued: map<Token, Claim>, token: Token, now: Time)
    requires Inv(row, issued) && token !in issued && Runnable(row, now)
    ensures var (after, claim) := AfterClaim(row, token, now);
            && Inv(after, if claim.Some? then issued[token := claim.value] else issued)
            && Extends(row.attempts, after.attempts)
            && (claim.Some? ==> claim.value.number == |after.attempts| && claim.value.cycleNumber <= MAX_ATTEMPTS)
  {
  }

  lemma FinalizeKeepsInv(row: Row, issued: map<Token, Claim>, claim: Claim, reply: Reply, now: Time, jitter: nat)
    requires Inv(row, issued) && claim.token in issued && issued[claim.token] == claim
    ensures var after := AfterFinalize(row, claim, reply, now, jitter);
            && Inv(after, issued) && Extends(row.attempts, after.attempts)
            && (LeaseValid(row, claim.token, now) ==> claim.number == |row.attempts|)
  {
  }

  // A whole life of a delivery: any workers, any clock, claims finalized in any order or never.
  datatype Event =
    | Claiming(token: Token, now: Time)
    | Finalizing(token: Token, reply: Reply, now: Time, jitter: nat)
    | Redelivering(now: Time)

  datatype World = World(row: Row, issued: map<Token, Claim>)

  ghost function Step(w: World, e: Event): World {
    match e
    case Claiming(token, now) =>
      if token in w.issued || !Runnable(w.row, now) then w
      else
        var (row, claim) := AfterClaim(w.row, token, now);
        World(row, if claim.Some? then w.issued[token := claim.value] else w.issued)
    case Finalizing(token, reply, now, jitter) =>
      if token !in w.issued then w
      else w.(row := AfterFinalize(w.row, w.issued[token], reply, now, jitter))
    case Redelivering(now) =>
      if w.row.status == Delivered || w.row.status == Failed then w.(row := Restarted(w.row, now)) else w
  }

  ghost predicate ClaimsOk(issued: map<Token, Claim>) {
    forall token :: token in issued ==> issued[token].token == token
  }

  lemma StepKeepsInv(w: World, e: Event)
    requires Inv(w.row, w.issued) && ClaimsOk(w.issued)
    ensures var after := Step(w, e);
            Inv(after.row, after.issued) && ClaimsOk(after.issued) && Extends(w.row.attempts, after.row.attempts)
  {
    match e
    case Claiming(token, now) =>
      if token !in w.issued && Runnable(w.row, now) {
        ClaimKeepsInv(w.row, w.issued, token, now);
      }
    case Finalizing(token, reply, now, jitter) =>
      if token in w.issued {
        FinalizeKeepsInv(w.row, w.issued, w.issued[token], reply, now, jitter);
      }
    case Redelivering(now) =>
  }

  ghost function Run(w: World, events: seq<Event>): World
    decreases |events|
  {
    if events == [] then w else Run(Step(w, events[0]), events[1..])
  }

  lemma ExtendsTransitive(a: seq<Attempt>, b: seq<Attempt>, c: seq<Attempt>)
    requires Extends(a, b) && Extends(b, c)
    ensures Extends(a, c)
  {
  }

  /** Over every run: the shape of the row holds, each cycle makes at most 8 attempts, and an
      attempt's outcome, once written, is never written again. */
  lemma {:induction false} RunKeepsInv(w: World, events: seq<Event>)
    requires Inv(w.row, w.issued) && ClaimsOk(w.issued)
    ensures var after := Run(w, events);
            && Inv(after.row, after.issued) && ClaimsOk(after.issued)
            && Extends(w.row.attempts, after.row.attempts)
    decreases |events|
  {
    if events != [] {
      StepKeepsInv(w, events[0]);
      var next := Step(w, events[0]);
      RunKeepsInv(next, events[1..]);
      ExtendsTransitive(w.row.attempts, next.row.attempts, Run(next, events[1..]).row.attempts);
    }
  }

  /** A claim whose lease is gone is dead for good: however the run went on from there,
      finalizing with it changes nothing. */
  lemma {:induction false} StaleClaimsStayStale(w: World, events: seq<Event>, token: Token, reply: Reply, now: Time,
                                                jitter: nat)
    requires Inv(w.row, w.issued) && ClaimsOk(w.issued) && token in w.issued
    requires w.row.lease.None? || w.row.lease.value.token != token
    ensures var after := Run(w, events);
            token in after.issued && Step(after, Finalizing(token, reply, now, jitter)) == after
    decreases |events|
  {
    if events != [] {
      StepKeepsInv(w, events[0]);
      StaleClaimsStayStale(Step(w, events[0]), events[1..], token, reply, now, jitter);
    }
  }
}
