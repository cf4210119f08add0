/** The receipt registry in front of the patch engine (`apply_patch` in patch.rs,
    `FileMutationRegistry` in filesystem.rs): a mutation identifier is carried out once, and asked
    again it is answered from the registry without a look at the files. */
module Mutations {
  import opened Errors
  import opened Files
  import opened Patch
  import opened Plan
  import Replace
  import opened Text
  import opened Wrappers

  datatype PatchRequest = PatchRequest(mutationId: string, cwd: Option<string>, patch: PatchInput)

  // What a request asks for: a digest of the whole request, taken as injective; or some other kind
  // of mutation under the same identifiers.
  datatype Fingerprint = OfPatch(request: PatchRequest) | OfOther(tag: nat)

  datatype Outcome = PatchOutcome(receipt: Receipt) | OtherOutcome

  type Entries = map<string, (Fingerprint, Outcome)>

  function EditBytes(edits: seq<Replace.Edit>): nat {
    if edits == [] then 0 else Utf8Size(edits[0].oldText) + Utf8Size(edits[0].newText) + EditBytes(edits[1..])
  }

  function FileBytes(files: seq<(string, seq<Replace.Edit>)>): nat {
    if files == [] then 0 else Utf8Size(files[0].0) + EditBytes(files[0].1) + FileBytes(files[1..])
  }

  function RawBytes(patch: PatchInput): nat {
    match patch
    case CodexText(text) => Utf8Size(text)
    case TextReplacements(files) => FileBytes(files)
  }

  // `validate_mutation_id` and the size of the raw request.
  function CheckRequest(request: PatchRequest): Option<ErrorCode> {
    if request.mutationId == "" || Utf8Size(request.mutationId) > 256 then Some(InvalidArgument)
    else if RawBytes(request.patch) > MAX_PATCH_BYTES * 2 then Some(ResourceLimit)
    else None
  }

  // The answer from the registry.
  function Replay(entries: Entries, request: PatchRequest): Result<Receipt, ErrorCode>
    requires request.mutationId in entries
  {
    var (known, outcome) := entries[request.mutationId];
    if known == OfPatch(request) && outcome.PatchOutcome? then Ok(outcome.receipt) else Err(IdempotencyConflict)
  }

  class FileMutationRegistry {
    const maximum: nat
    var entries: Entries

    constructor (maximum: nat)
      ensures this.maximum == maximum && entries == map[]
    {
      this.maximum, entries := maximum, map[];
    }

    /** `apply_patch`: a known identifier never reaches the files; a new one is carried out, as
        `Execute` has it, and remembered with its receipt, or refused before anything is looked at.
        No entry is ever changed or dropped, so no identifier is carried out twice. */
    method ApplyPatch(disk: Disk, request: PatchRequest, available: bool, encodedBytes: nat, names: Names, limit: nat)
      returns (r: Result<Receipt, ErrorCode>, ghost run: Run)
      requires |entries| <= maximum
      modifies this`entries, disk
      ensures |entries| <= maximum && Logged(old(disk.Log()), disk.Log(), run.did, run.looks)
      ensures request.mutationId in old(entries) || r.Err? ==>
                entries == old(entries) && run == NO_RUN && disk.files == old(disk.files)
      ensures request.mutationId in old(entries) && available && CheckRequest(request).None? ==>
                r == Replay(old(entries), request)
      ensures request.mutationId !in old(entries) && r.Ok? ==>
                && entries == old(entries)[request.mutationId := (OfPatch(request), PatchOutcome(r.value))]
                && Replay(entries, request) == r && r.value.mutationId == request.mutationId
                && CarriedOut(request.patch, names, limit, r.value, run)
                && (disk.quiet ==> Quiet(old(disk.files), disk.files, r.value.changesExact, run))
                && (disk.Calm() ==>
                      Completed(old(disk.files), disk.files, request.patch, names, limit, r.value.status, run))
      ensures request.mutationId !in old(entries) ==>
                (r.Ok? <==>
                   && available && CheckRequest(request).None? && encodedBytes <= MAX_PATCH_BYTES * 2
                   && |old(entries)| < maximum)
    {
      run := NO_RUN;
      assert disk.events + [] == disk.events && disk.looked + [] == disk.looked;
      if !available {
        return Err(Unavailable), run;
      }
      var refused := CheckRequest(request);
      if refused.Some? {
        return Err(refused.value), run;
      }
      if request.mutationId in entries {
        return Replay(entries, request), run;
      }
      if encodedBytes > MAX_PATCH_BYTES * 2 || |entries| >= maximum {
        return Err(ResourceLimit), run;
      }
      var receipt;
      receipt, run := Execute(disk, request.mutationId, request.patch, names, limit);
      var copy := receipt.Value();
      entries := entries[request.mutationId := (OfPatch(request), PatchOutcome(copy))];
      r := Ok(copy);
    }
  }

  const NO_RUN := Run(None, 0, [], [])

  // A run and its receipt, exact or not.
  ghost predicate CarriedOut(input: PatchInput, names: Names, limit: nat, r: Receipt, run: Run) {
    Honest(input, names, limit, r, run) && (r.changesExact ==> Exact(r.changes, run))
  }
}
