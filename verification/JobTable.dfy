/** The bounded table of lifecycle jobs and its index from operation to job. */
module JobTable {
  import opened Lifecycle

  // A time of zero stands for the unset time.
  datatype Job = Job(
    status: Status,
    finishedAt: nat,
    operation: string,
    fingerprint: string,
    cancelRequested: bool,
    message: Message)

  type Jobs = map<string, Job>

  datatype Table = Table(jobs: Jobs, index: map<string, string>)

  datatype Limits = Limits(maxEntries: nat, retention: nat)

  predicate Expired(job: Job, now: nat, retention: nat) {
    IsTerminal(job.status) && job.finishedAt != 0 && job.finishedAt + retention <= now
  }

  predicate Indexed(t: Table, id: string) {
    id in t.jobs && t.jobs[id].operation != "" && t.jobs[id].operation in t.index && t.index[t.jobs[id].operation] == id
  }

  function Remove(t: Table, id: string): Table {
    Table(t.jobs - {id}, if Indexed(t, id) then t.index - {t.jobs[id].operation} else t.index)
  }

  function Prune(t: Table, now: nat, retention: nat): Table {
    Table(
      map id | id in t.jobs && !Expired(t.jobs[id], now, retention) :: t.jobs[id],
      map op | op in t.index && !Lapsed(t, op, now, retention) :: t.index[op])
  }

  predicate Lapsed(t: Table, op: string, now: nat, retention: nat)
    requires op in t.index
  {
    op != "" && t.index[op] in t.jobs && t.jobs[t.index[op]].operation == op
    && Expired(t.jobs[t.index[op]], now, retention)
  }

  datatype ReserveResult = NewJob(id: string) | ExistingJob(id: string) | Conflict | Full | Collision

  /** The first candidate id that is not taken. */
  function Fresh(jobs: Jobs, candidates: seq<string>): Option<string> {
    if candidates == [] then None
    else if candidates[0] in jobs then Fresh(jobs, candidates[1..])
    else Some(candidates[0])
  }

  function Reserve(t: Table, limits: Limits, operation: string, fingerprint: string, candidates: seq<string>,
                   now: nat): (Table, ReserveResult) {
    var p := Prune(t, now, limits.retention);
    if operation != "" && operation in p.index && p.index[operation] in p.jobs then
      (p, if p.jobs[p.index[operation]].fingerprint != fingerprint then Conflict else ExistingJob(p.index[operation]))
    else
      Insert(if operation != "" then p.(index := p.index - {operation}) else p, limits, operation, fingerprint,
             candidates)
  }

  function Insert(t: Table, limits: Limits, operation: string, fingerprint: string,
                  candidates: seq<string>): (Table, ReserveResult) {
    if |t.jobs| >= limits.maxEntries then
      (t, Full)
    else
      match Fresh(t.jobs, candidates)
      case None => (t, Collision)
      case Some(id) =>
        (Table(t.jobs[id := Job(Pending, 0, operation, fingerprint, false, NoMessage)],
               if operation != "" then t.index[operation := id] else t.index),
         NewJob(id))
  }

  function Discard(t: Table, id: string): Table {
    if id in t.jobs && (t.jobs[id].status.Pending? || IsTerminal(t.jobs[id].status)) then Remove(t, id) else t
  }

  /** The second component says whether the running job's context is cancelled. */
  function RequestCancel(t: Table, id: string, now: nat): (Table, bool) {
    if id !in t.jobs then
      (t, false)
    else
      match t.jobs[id].status
      case Pending => (t.(jobs := t.jobs[id := t.jobs[id].(status := Cancelled, finishedAt := now)]), false)
      case Running => (t.(jobs := t.jobs[id := t.jobs[id].(cancelRequested := true)]), true)
      case _ => (t, false)
  }

  function Claim(t: Table, id: string): (Table, bool) {
    if id in t.jobs && t.jobs[id].status.Pending? then
      (t.(jobs := t.jobs[id := t.jobs[id].(status := Running)]), true)
    else
      (t, false)
  }

  function Finish(t: Table, id: string, status: Status, message: Message, now: nat): Table {
    if id !in t.jobs || IsTerminal(t.jobs[id].status) then
      t
    else
      var s := if t.jobs[id].cancelRequested && !status.RecoveryRequired? then Cancelled else status;
      t.(jobs := t.jobs[id := t.jobs[id].(status := s, message := message,
                                          finishedAt := if IsTerminal(s) then now else 0)])
  }

  // -------------------------------------------------------------- Invariant

  /** The index is a bijection onto the jobs that carry an operation id. */
  predicate Bijective(t: Table) {
    && (forall op :: op in t.index ==> op != "" && t.index[op] in t.jobs && t.jobs[t.index[op]].operation == op)
    && (forall id :: id in t.jobs && t.jobs[id].operation != "" ==> Indexed(t, id))
  }

  predicate TableInv(t: Table, limits: Limits) {
    |t.jobs| <= limits.maxEntries && Bijective(t)
  }

  datatype Call =
    | ReserveCall(operation: string, fingerprint: string, candidates: seq<string>, now: nat)
    | DiscardCall(id: string)
    | CancelCall(id: string, now: nat)
    | ClaimCall(id: string)
    | FinishCall(id: string, status: Status, message: Message, now: nat)
    | LookupCall(now: nat)

  /** No caller finishes a job back into the table's live states. */
  predicate Allowed(call: Call) {
    call.FinishCall? ==> IsTerminal(call.status) || call.status.RecoveryRequired?
  }

  function Step(t: Table, limits: Limits, call: Call): Table {
    match call
    case ReserveCall(operation, fingerprint, candidates, now) =>
      Reserve(t, limits, operation, fingerprint, candidates, now).0
    case DiscardCall(id) => Discard(t, id)
    case CancelCall(id, now) => RequestCancel(t, id, now).0
    case ClaimCall(id) => Claim(t, id).0
    case FinishCall(id, status, message, now) => Finish(t, id, status, message, now)
    case LookupCall(now) => Prune(t, now, limits.retention)
  }

  function Run(t: Table, limits: Limits, calls: seq<Call>): Table {
    if calls == [] then t else Step(Run(t, limits, calls[..|calls| - 1]), limits, calls[|calls| - 1])
  }

  lemma PruneKeepsInv(t: Table, limits: Limits, now: nat)
    requires TableInv(t, limits)
    ensures TableInv(Prune(t, now, limits.retention), limits)
  {
    var p := Prune(t, now, limits.retention);
    SubsetSize(p.jobs.Keys, t.jobs.Keys);
    assert |p.jobs| == |p.jobs.Keys| && |t.jobs| == |t.jobs.Keys|;
    forall id | id in p.jobs && p.jobs[id].operation != "" ensures Indexed(p, id) {
      assert Indexed(t, id);
    }
  }

  lemma ReserveKeepsInv(t: Table, limits: Limits, operation: string, fingerprint: string, candidates: seq<string>,
                        now: nat)
    requires TableInv(t, limits)
    ensures TableInv(Reserve(t, limits, operation, fingerprint, candidates, now).0, limits)
  {
    PruneKeepsInv(t, limits, now);
    var p := Prune(t, now, limits.retention);
    if Reserve(t, limits, operation, fingerprint, candidates, now).1.NewJob? {
      FreshIsFree(p.jobs, candidates);
      var u := Reserve(t, limits, operation, fingerprint, candidates, now).0;
      forall id | id in u.jobs && u.jobs[id].operation != "" ensures Indexed(u, id) {
        if id in p.jobs { assert Indexed(p, id); }
      }
    }
  }

  lemma {:induction false} FreshIsFree(jobs: Jobs, candidates: seq<string>)
    ensures match Fresh(jobs, candidates)
            case None => forall i :: 0 <= i < |candidates| ==> candidates[i] in jobs
            case Some(id) => id !in jobs && id in candidates
  {
    if candidates != [] && candidates[0] in jobs {
      FreshIsFree(jobs, candidates[1..]);
      assert candidates == [candidates[0]] + candidates[1..];
    }
  }

  lemma UpdateKeepsInv(t: Table, limits: Limits, id: string, job: Job)
    requires TableInv(t, limits) && id in t.jobs && job.operation == t.jobs[id].operation
    ensures TableInv(t.(jobs := t.jobs[id := job]), limits)
  {
    var u := t.(jobs := t.jobs[id := job]);
    assert u.jobs.Keys == t.jobs.Keys;
    assert |u.jobs| == |u.jobs.Keys| && |t.jobs| == |t.jobs.Keys|;
    forall k | k in u.jobs && u.jobs[k].operation != "" ensures Indexed(u, k) {
      assert Indexed(t, k);
    }
  }

  lemma RemoveKeepsInv(t: Table, limits: Limits, id: string)
    requires TableInv(t, limits) && id in t.jobs
    ensures TableInv(Remove(t, id), limits)
  {
    var u := Remove(t, id);
    SubsetSize(u.jobs.Keys, t.jobs.Keys);
    assert |u.jobs| == |u.jobs.Keys| && |t.jobs| == |t.jobs.Keys|;
    assert t.jobs[id].operation != "" ==> Indexed(t, id);
    forall k | k in u.jobs && u.jobs[k].operation != "" ensures Indexed(u, k) {
      assert Indexed(t, k);
    }
  }

  lemma StepKeepsInv(t: Table, limits: Limits, call: Call)
    requires TableInv(t, limits)
    ensures TableInv(Step(t, limits, call), limits)
  {
    match call
    case ReserveCall(operation, fingerprint, candidates, now) =>
      ReserveKeepsInv(t, limits, operation, fingerprint, candidates, now);
    case DiscardCall(id) => if id in t.jobs { RemoveKeepsInv(t, limits, id); }
    case CancelCall(id, now) =>
      if id in t.jobs {
        UpdateKeepsInv(t, limits, id, t.jobs[id].(status := Cancelled, finishedAt := now));
        UpdateKeepsInv(t, limits, id, t.jobs[id].(cancelRequested := true));
      }
    case ClaimCall(id) => if id in t.jobs { UpdateKeepsInv(t, limits, id, t.jobs[id].(status := Running)); }
    case FinishCall(id, status, message, now) =>
      if id in t.jobs && !IsTerminal(t.jobs[id].status) {
        UpdateKeepsInv(t, limits, id, Finish(t, id, status, message, now).jobs[id]);
      }
    case LookupCall(now) => PruneKeepsInv(t, limits, now);
  }

  lemma {:induction false} RunKeepsInv(t: Table, limits: Limits, calls: seq<Call>)
    requires TableInv(t, limits)
    ensures TableInv(Run(t, limits, calls), limits)
  {
    if calls != [] {
      RunKeepsInv(t, limits, calls[..|calls| - 1]);
      StepKeepsInv(Run(t, limits, calls[..|calls| - 1]), limits, calls[|calls| - 1]);
    }
  }

  /** A status only moves forward: out of pending for good, and a terminal
      status is never left, for as long as the job stays in the table. */
  predicate Onward(before: Status, after: Status) {
    && (after.Pending? ==> before.Pending?)
    && (IsTerminal(before) ==> after == before)
  }

  /** Ids are drawn at random; no reservation after the first draws `id` again. */
  predicate NotRedrawn(calls: seq<Call>, id: string) {
    forall k :: 0 <= k < |calls| ==> calls[k].ReserveCall? ==> id !in calls[k].candidates
  }

  lemma StepIsOnward(t: Table, limits: Limits, call: Call, id: string)
    requires Allowed(call) && (call.ReserveCall? ==> id !in call.candidates)
    requires id in Step(t, limits, call).jobs
    ensures id in t.jobs && Onward(t.jobs[id].status, Step(t, limits, call).jobs[id].status)
  {
    if call.ReserveCall? {
      FreshIsFree(Prune(t, call.now, limits.retention).jobs, call.candidates);
    }
  }

  lemma {:induction false} RunIsOnward(t: Table, limits: Limits, calls: seq<Call>, id: string)
    requires NotRedrawn(calls, id) && (forall k :: 0 <= k < |calls| ==> Allowed(calls[k]))
    requires id in Run(t, limits, calls).jobs
    ensures id in t.jobs && Onward(t.jobs[id].status, Run(t, limits, calls).jobs[id].status)
  {
    if calls != [] {
      var most := calls[..|calls| - 1];
      StepIsOnward(Run(t, limits, most), limits, calls[|calls| - 1], id);
      RunIsOnward(t, limits, most, id);
    }
  }

  lemma {:induction false} RunSplits(t: Table, limits: Limits, first: seq<Call>, second: seq<Call>)
    ensures Run(t, limits, first + second) == Run(Run(t, limits, first), limits, second)
  {
    if second == [] {
      assert first + second == first;
    } else {
      var most := second[..|second| - 1];
      assert (first + second)[..|first + second| - 1] == first + most;
      RunSplits(t, limits, first, most);
    }
  }

  predicate ClaimsAt(t: Table, limits: Limits, calls: seq<Call>, id: string, k: nat)
    requires k < |calls|
  {
    calls[k] == ClaimCall(id) && Claim(Run(t, limits, calls[..k]), id).1
  }

  /** In any run each job is claimed at most once, and a job that stopped being
      pending for any reason, such as a cancellation, is never claimed later. */
  lemma ClaimedOnlyWhilePending(t: Table, limits: Limits, calls: seq<Call>, id: string, i: nat, j: nat)
    requires NotRedrawn(calls, id) && (forall k :: 0 <= k < |calls| ==> Allowed(calls[k]))
    requires i <= j < |calls| && ClaimsAt(t, limits, calls, id, j)
    ensures id in Run(t, limits, calls[..i]).jobs && Run(t, limits, calls[..i]).jobs[id].status.Pending?
    ensures i < j ==> !ClaimsAt(t, limits, calls, id, i)
  {
    assert calls[..j] == calls[..i] + calls[i..j];
    RunSplits(t, limits, calls[..i], calls[i..j]);
    RunIsOnward(Run(t, limits, calls[..i]), limits, calls[i..j], id);
    if i < j && ClaimsAt(t, limits, calls, id, i) {
      assert calls[..i + 1] == calls[..i] + [calls[i]];
      assert calls[..j] == calls[..i + 1] + calls[i + 1..j];
      RunSplits(t, limits, calls[..i + 1], calls[i + 1..j]);
      RunIsOnward(Run(t, limits, calls[..i + 1]), limits, calls[i + 1..j], id);
    }
  }

  // ------------------------------------------------ Jobs left for a recovery

  /** A job that its worker left for a recovery, under its operation. */
  predicate LeftForRecovery(t: Table, id: string, operation: string, fingerprint: string) {
    && Indexed(t, id) && t.jobs[id].operation == operation
    && t.jobs[id].status.RecoveryRequired? && t.jobs[id].fingerprint == fingerprint
  }

  /** Its worker is gone, so nobody finishes it again. */
  predicate NotFinishedAgain(calls: seq<Call>, id: string) {
    forall k :: 0 <= k < |calls| ==> calls[k].FinishCall? ==> calls[k].id != id
  }

  lemma StepKeepsLeft(t: Table, limits: Limits, call: Call, id: string, operation: string, fingerprint: string)
    requires TableInv(t, limits) && LeftForRecovery(t, id, operation, fingerprint)
    requires call.FinishCall? ==> call.id != id
    ensures LeftForRecovery(Step(t, limits, call), id, operation, fingerprint)
  {
    if call.ReserveCall? {
      FreshIsFree(Prune(t, call.now, limits.retention).jobs, call.candidates);
    } else if call.DiscardCall? && call.id in t.jobs && call.id != id && Indexed(t, call.id) {
      assert t.jobs[call.id].operation != operation;
    }
  }

  lemma {:induction false} RunKeepsLeft(t: Table, limits: Limits, calls: seq<Call>, id: string, operation: string,
                                        fingerprint: string)
    requires TableInv(t, limits) && LeftForRecovery(t, id, operation, fingerprint) && NotFinishedAgain(calls, id)
    ensures LeftForRecovery(Run(t, limits, calls), id, operation, fingerprint)
  {
    if calls != [] {
      var most := calls[..|calls| - 1];
      RunKeepsLeft(t, limits, most, id, operation, fingerprint);
      RunKeepsInv(t, limits, most);
      StepKeepsLeft(Run(t, limits, most), limits, calls[|calls| - 1], id, operation, fingerprint);
    }
  }

  /** A job finished as needing recovery stays in the table, whatever is called
      and however much time passes: a repair finishes its record, not the job, and
      only finished jobs are pruned. So a later request under the same operation
      is answered with it, or with a conflict if it asks for something else. */
  lemma RecoveryJobAnswersForGood(t: Table, limits: Limits, id: string, message: Message, at: nat, calls: seq<Call>,
                                  fingerprint: string, candidates: seq<string>, now: nat)
    requires TableInv(t, limits) && id in t.jobs && !IsTerminal(t.jobs[id].status) && t.jobs[id].operation != ""
    requires NotFinishedAgain(calls, id)
    ensures var u := Run(Finish(t, id, RecoveryRequired, message, at), limits, calls);
      Reserve(u, limits, t.jobs[id].operation, fingerprint, candidates, now).1 ==
        if fingerprint == t.jobs[id].fingerprint then ExistingJob(id) else Conflict
  {
    var f := Finish(t, id, RecoveryRequired, message, at);
    StepKeepsInv(t, limits, FinishCall(id, RecoveryRequired, message, at));
    assert Indexed(t, id);
    RunKeepsLeft(f, limits, calls, id, t.jobs[id].operation, t.jobs[id].fingerprint);
  }
}
