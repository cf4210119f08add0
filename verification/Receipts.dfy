/** The daemon's receipt table (receipts.rs): every accepted request reserves room for the
    largest response, so a response can always be retained until it is acknowledged. */
module Receipts {
  import opened Wrappers

  const MAX_RECEIPTS: nat := 128
  const MAX_FRAME_BYTES: nat := 8 * 1024 * 1024
  const MAX_BYTES: nat := 256 * 1024 * 1024

  // A SHA-256 digest of the request.
  type Fingerprint = nat
  type Text = seq<Byte>

  datatype Admission = New | Existing | Conflict | Full

  datatype Receipt = Receipt(fingerprint: Fingerprint, response: Option<Text>) {
    function Charge(): nat {
      if response.None? then MAX_FRAME_BYTES else |response.value|
    }
  }

  type Table = map<string, Receipt>

  // What a table is charged for: 8 MiB for each pending receipt, its length for each response.
  ghost function Held(t: Table): nat
    decreases |t|
  {
    if t == map[] then 0
    else
      var id :| id in t;
      t[id].Charge() + Held(t - {id})
  }

  lemma {:induction false} HeldWithout(t: Table, id: string)
    requires id in t
    ensures Held(t) == t[id].Charge() + Held(t - {id})
    decreases |t|
  {
    var first :| first in t && Held(t) == t[first].Charge() + Held(t - {first});
    if first != id {
      HeldWithout(t - {first}, id);
      HeldWithout(t - {id}, first);
      assert t - {first} - {id} == t - {id} - {first};
    }
  }

  lemma HeldWith(t: Table, id: string, r: Receipt)
    ensures Held(t[id := r]) == r.Charge() + Held(t - {id})
  {
    HeldWithout(t[id := r], id);
    assert t[id := r] - {id} == t - {id};
  }

  ghost function Pending(t: Table): set<string> {
    set id | id in t && t[id].response.None?
  }

  ghost predicate Sound(t: Table) {
    && |t| <= MAX_RECEIPTS
    && Held(t) <= MAX_BYTES
    && forall id :: id in t && t[id].response.Some? ==> |t[id].response.value| <= MAX_FRAME_BYTES
  }

  lemma PendingWithout(t: Table, id: string)
    requires id in t
    ensures |Pending(t)| == |Pending(t - {id})| + if t[id].response.None? then 1 else 0
  {
    var others := Pending(t - {id});
    assert others == Pending(t) - {id};
    if t[id].response.None? {
      assert Pending(t) == others + {id};
    } else {
      assert Pending(t) == others;
    }
  }

  lemma {:induction false} PendingCharge(t: Table)
    ensures |Pending(t)| * MAX_FRAME_BYTES <= Held(t)
    decreases |t|
  {
    if t == map[] {
      assert Pending(t) == {};
    } else {
      var id :| id in t;
      var rest := t - {id};
      PendingCharge(rest);
      PendingWithout(t, id);
      HeldWithout(t, id);
      var n, m: nat := |Pending(rest)|, |Pending(t)|;
      assert n * MAX_FRAME_BYTES <= Held(rest);
      assert m == n + if t[id].response.None? then 1 else 0;
      assert m * MAX_FRAME_BYTES == n * MAX_FRAME_BYTES + if t[id].response.None? then MAX_FRAME_BYTES else 0;
    }
  }

  /** The reservation is what bounds the work in flight: 256 MiB holds 32 frames. */
  lemma AtMost32Pending(t: Table)
    requires Sound(t)
    ensures |Pending(t)| <= 32
  {
    PendingCharge(t);
  }

  class Receipts {
    var entries: Table
    var bytes: nat

    ghost predicate Valid()
      reads this
    {
      Sound(entries) && bytes == Held(entries)
    }

    constructor ()
      ensures Valid() && entries == map[] && bytes == 0
    {
      entries := map[];
      bytes := 0;
    }

    method Accept(id: string, fingerprint: Fingerprint, busy: bool) returns (a: Admission)
      requires Valid()
      modifies this
      ensures Valid()
      ensures a == Admitted(old(entries), id, fingerprint, busy)
      ensures entries == if a.New? then old(entries)[id := Receipt(fingerprint, None)] else old(entries)
    {
      if id in entries {
        return if entries[id].fingerprint == fingerprint then Existing else Conflict;
      }
      if busy || |entries| >= MAX_RECEIPTS || bytes + MAX_FRAME_BYTES > MAX_BYTES {
        return Full;
      }
      HeldWith(entries, id, Receipt(fingerprint, None));
      assert entries - {id} == entries;
      bytes := bytes + MAX_FRAME_BYTES;
      entries := entries[id := Receipt(fingerprint, None)];
      return New;
    }

    // The subtraction comes first in the source and must not underflow.
    method Complete(id: string, response: Text)
      requires Valid()
      requires id in entries && entries[id].response.None? && |response| <= MAX_FRAME_BYTES
      modifies this
      ensures Valid()
      ensures entries == old(entries)[id := Receipt(old(entries)[id].fingerprint, Some(response))]
      ensures bytes == old(bytes) - MAX_FRAME_BYTES + |response|
    {
      var receipt := entries[id].(response := Some(response));
      HeldWithout(entries, id);
      HeldWith(entries, id, receipt);
      bytes := bytes - MAX_FRAME_BYTES + |response|;
      entries := entries[id := receipt];
    }

    // Any completed receipt outside `sent`, and none only when there is none.
    method NextResponse(sent: set<string>) returns (r: Option<(string, Text)>)
      ensures r.Some? ==> r.value.0 in entries && r.value.0 !in sent
                          && entries[r.value.0].response == Some(r.value.1)
      ensures r.None? ==> forall id :: id in entries && id !in sent ==> entries[id].response.None?
    {
      var rest := entries.Keys;
      while rest != {}
        invariant rest <= entries.Keys
        invariant forall id :: id in entries && id !in rest && id !in sent ==> entries[id].response.None?
        decreases rest
      {
        var id :| id in rest;
        rest := rest - {id};
        if id !in sent && entries[id].response.Some? {
          return Some((id, entries[id].response.value));
        }
      }
      return None;
    }

    method Acknowledge(id: string)
      requires Valid()
      modifies this
      ensures Valid()
      ensures entries == if id in old(entries) && old(entries)[id].response.Some?
                         then old(entries) - {id} else old(entries)
    {
      if id in entries && entries[id].response.Some? {
        HeldWithout(entries, id);
        bytes := bytes - |entries[id].response.value|;
        entries := entries - {id};
      }
    }
  }

  ghost function Admitted(t: Table, id: string, fingerprint: Fingerprint, busy: bool): Admission {
    if id in t then (if t[id].fingerprint == fingerprint then Existing else Conflict)
    else if busy || |t| >= MAX_RECEIPTS || Held(t) + MAX_FRAME_BYTES > MAX_BYTES then Full
    else New
  }

  // The calls the daemon makes. A request task, started for every new receipt, is the only
  // caller of `complete`, and calls it once; `response_text` bounds what it passes.
  datatype Call =
    | Accept(id: string, fingerprint: Fingerprint, busy: bool)
    | Complete(id: string, response: Text)
    | Acknowledge(id: string)

  datatype Daemon = Daemon(table: Table, tasks: set<string>)

  ghost function Step(d: Daemon, c: Call): Daemon {
    match c
    case Accept(id, fingerprint, busy) =>
      if Admitted(d.table, id, fingerprint, busy).New? then
        Daemon(d.table[id := Receipt(fingerprint, None)], d.tasks + {id})
      else d
    case Complete(id, response) =>
      if id in d.tasks && id in d.table && |response| <= MAX_FRAME_BYTES then
        Daemon(d.table[id := d.table[id].(response := Some(response))], d.tasks - {id})
      else d
    case Acknowledge(id) =>
      if id in d.table && d.table[id].response.Some? then d.(table := d.table - {id}) else d
  }

  ghost function Run(d: Daemon, calls: seq<Call>): Daemon
    decreases |calls|
  {
    if calls == [] then d else Run(Step(d, calls[0]), calls[1..])
  }

  ghost predicate Inv(d: Daemon) {
    Sound(d.table) && d.tasks == Pending(d.table)
  }

  lemma AcceptKeepsInv(d: Daemon, id: string, r: Receipt)
    requires Inv(d) && id !in d.table && r.response.None?
    requires |d.table| < MAX_RECEIPTS && Held(d.table) + MAX_FRAME_BYTES <= MAX_BYTES
    ensures Inv(Daemon(d.table[id := r], d.tasks + {id}))
  {
    SoundWith(d.table, id, r);
    assert Pending(d.table[id := r]) == Pending(d.table) + {id};
  }

  lemma SoundWith(t: Table, id: string, r: Receipt)
    requires Sound(t) && id !in t && r.response.None?
    requires |t| < MAX_RECEIPTS && Held(t) + MAX_FRAME_BYTES <= MAX_BYTES
    ensures Sound(t[id := r])
  {
    AddedSize(t, id, r);
    AddedCharge(t, id, r);
  }

  lemma AddedCharge(t: Table, id: string, r: Receipt)
    requires id !in t
    ensures Held(t[id := r]) == Held(t) + r.Charge()
  {
    HeldWith(t, id, r);
    assert t - {id} == t;
  }

  lemma AddedSize(t: Table, id: string, r: Receipt)
    requires id !in t
    ensures |t[id := r]| == |t| + 1
  {
    assert t[id := r].Keys == t.Keys + {id};
    assert |t[id := r]| == |t[id := r].Keys| && |t| == |t.Keys|;
  }

  lemma CompleteKeepsInv(d: Daemon, id: string, r: Receipt)
    requires Inv(d) && id in d.tasks
    requires r.response.Some? && |r.response.value| <= MAX_FRAME_BYTES
    ensures Inv(Daemon(d.table[id := r], d.tasks - {id}))
  {
    var t := d.table[id := r];
    HeldWithout(d.table, id);
    HeldWith(d.table, id, r);
    assert t.Keys == d.table.Keys;
    assert |t| == |t.Keys| && |d.table| == |d.table.Keys|;
    assert Pending(t) == Pending(d.table) - {id};
  }

  lemma AcknowledgeKeepsInv(d: Daemon, id: string)
    requires Inv(d) && id in d.table && d.table[id].response.Some?
    ensures Inv(d.(table := d.table - {id}))
  {
    var t := d.table - {id};
    HeldWithout(d.table, id);
    assert t.Keys == d.table.Keys - {id};
    assert |t| == |t.Keys| && |d.table| == |d.table.Keys|;
    assert Pending(t) == Pending(d.table);
  }

  lemma StepKeepsInv(d: Daemon, c: Call)
    requires Inv(d)
    ensures Inv(Step(d, c))
  {
    match c
    case Accept(id, fingerprint, busy) =>
      if Admitted(d.table, id, fingerprint, busy).New? {
        AcceptKeepsInv(d, id, Receipt(fingerprint, None));
      }
    case Complete(id, response) =>
      if id in d.tasks && |response| <= MAX_FRAME_BYTES {
        CompleteKeepsInv(d, id, d.table[id].(response := Some(response)));
      }
    case Acknowledge(id) =>
      if id in d.table && d.table[id].response.Some? {
        AcknowledgeKeepsInv(d, id);
      }
  }

  /** In every reachable state the accounting holds, at most 32 requests are pending, and each
      running task still finds its pending receipt, so `complete` never panics. */
  lemma {:induction false} RunKeepsInv(d: Daemon, calls: seq<Call>)
    requires Inv(d)
    ensures Inv(Run(d, calls)) && |Pending(Run(d, calls).table)| <= 32
    ensures forall id :: id in Run(d, calls).tasks ==>
                           id in Run(d, calls).table && Run(d, calls).table[id].response.None?
    decreases |calls|
  {
    if calls == [] {
      AtMost32Pending(d.table);
    } else {
      StepKeepsInv(d, calls[0]);
      RunKeepsInv(Step(d, calls[0]), calls[1..]);
    }
  }

  /** No receipt is dropped before it is acknowledged: whatever else happens, it keeps its
      fingerprint, and a response once stored is never replaced. */
  lemma {:induction false} ReceiptsSurvive(d: Daemon, calls: seq<Call>, id: string)
    requires Inv(d) && id in d.table
    requires forall i :: 0 <= i < |calls| ==> calls[i] != Acknowledge(id)
    ensures var after := Run(d, calls).table;
            && id in after && after[id].fingerprint == d.table[id].fingerprint
            && (d.table[id].response.Some? ==> after[id] == d.table[id])
    decreases |calls|
  {
    if calls != [] {
      StepKeepsInv(d, calls[0]);
      ReceiptsSurvive(Step(d, calls[0]), calls[1..], id);
    }
  }

  /** Acknowledging a request that is still running does not release it either. */
  lemma {:induction false} PendingReceiptsSurvive(d: Daemon, calls: seq<Call>, id: string)
    requires Inv(d) && id in d.tasks
    requires forall i :: 0 <= i < |calls| ==> !(calls[i].Complete? && calls[i].id == id)
    ensures var after := Run(d, calls);
            && id in after.tasks && id in after.table && after.table[id] == d.table[id]
    decreases |calls|
  {
    if calls != [] {
      StepKeepsInv(d, calls[0]);
      PendingReceiptsSurvive(Step(d, calls[0]), calls[1..], id);
    }
  }

  /** An acknowledgement releases a completed receipt and gives back what it was charged. */
  lemma AcknowledgeReleases(d: Daemon, id: string)
    requires Inv(d) && id in d.table && d.table[id].response.Some?
    ensures id !in Step(d, Acknowledge(id)).table
    ensures Held(Step(d, Acknowledge(id)).table) == Held(d.table) - |d.table[id].response.value|
  {
    HeldWithout(d.table, id);
  }
}
