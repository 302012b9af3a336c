/** The job manager: one method per critical section of its lock. */
module LifecycleJobs {
  import opened Lifecycle
  import Spec = JobTable

  class LifecycleJobManager {
    const limits: Spec.Limits
    var jobs: Spec.Jobs
    var operationJobs: map<string, string>

    ghost function State(): Spec.Table
      reads this
    {
      Spec.Table(jobs, operationJobs)
    }

    constructor (limits: Spec.Limits)
      ensures this.limits == limits && State() == Spec.Table(map[], map[])
    {
      this.limits := limits;
      jobs, operationJobs := map[], map[];
    }

    method PruneExpiredTerminal(now: nat)
      modifies this
      ensures State() == Spec.Prune(old(State()), now, limits.retention)
    {
      var before, index := jobs, operationJobs;
      var pending := jobs.Keys;
      while pending != {}
        invariant pending <= before.Keys
        invariant forall id :: id in jobs <==>
            id in before && (id in pending || !Spec.Expired(before[id], now, limits.retention))
        invariant forall id :: id in jobs ==> jobs[id] == before[id]
        invariant forall op :: op in operationJobs <==>
          op in index && (index[op] in pending || !Spec.Lapsed(old(State()), op, now, limits.retention))
        invariant forall op :: op in operationJobs ==> operationJobs[op] == index[op]
      {
        var id :| id in pending;
        pending := pending - {id};
        var job := before[id];
        if Spec.Expired(job, now, limits.retention) {
          jobs := jobs - {id};
          if job.operation != "" && job.operation in operationJobs && operationJobs[job.operation] == id {
            operationJobs := operationJobs - {job.operation};
          }
        }
      }
      assert jobs == Spec.Prune(old(State()), now, limits.retention).jobs;
      assert operationJobs == Spec.Prune(old(State()), now, limits.retention).index;
    }

    /** `candidates` are the ids that four draws would give. */
    method ReserveWithOperation(operation: string, fingerprint: string, candidates: seq<string>,
                                now: nat) returns (r: Spec.ReserveResult)
      modifies this
      ensures (State(), r) == Spec.Reserve(old(State()), limits, operation, fingerprint, candidates, now)
    {
      PruneExpiredTerminal(now);
      if operation != "" && operation in operationJobs {
        var existing := operationJobs[operation];
        if existing in jobs {
          return if jobs[existing].fingerprint != fingerprint then Spec.Conflict else Spec.ExistingJob(existing);
        }
        operationJobs := operationJobs - {operation};
      }
      assert operation != "" ==> operationJobs == operationJobs - {operation};
      r := Insert(operation, fingerprint, candidates);
    }

    method Insert(operation: string, fingerprint: string, candidates: seq<string>) returns (r: Spec.ReserveResult)
      modifies this
      ensures (State(), r) == Spec.Insert(old(State()), limits, operation, fingerprint, candidates)
    {
      if |jobs| >= limits.maxEntries {
        return Spec.Full;
      }
      for i := 0 to |candidates|
        invariant Spec.Fresh(jobs, candidates) == Spec.Fresh(jobs, candidates[i..])
        invariant State() == old(State())
      {
        var id := candidates[i];
        assert candidates[i..][0] == id && candidates[i..][1..] == candidates[i + 1..];
        if id !in jobs {
          jobs := jobs[id := Spec.Job(Pending, 0, operation, fingerprint, false, NoMessage)];
          if operation != "" {
            operationJobs := operationJobs[operation := id];
          }
          return Spec.NewJob(id);
        }
      }
      return Spec.Collision;
    }

    method Discard(id: string)
      modifies this
      ensures State() == Spec.Discard(old(State()), id)
    {
      if id in jobs && (jobs[id].status.Pending? || IsTerminal(jobs[id].status)) {
        var job := jobs[id];
        jobs := jobs - {id};
        if job.operation != "" && job.operation in operationJobs && operationJobs[job.operation] == id {
          operationJobs := operationJobs - {job.operation};
        }
      }
    }

    method RequestCancel(id: string, now: nat) returns (signalled: bool)
      modifies this
      ensures (State(), signalled) == Spec.RequestCancel(old(State()), id, now)
    {
      signalled := false;
      if id in jobs {
        var job := jobs[id];
        match job.status {
          case Pending => jobs := jobs[id := job.(status := Cancelled, finishedAt := now)];
          case Running =>
            jobs := jobs[id := job.(cancelRequested := true)];
            signalled := true;
          case _ =>
        }
      }
    }

    method Claim(id: string) returns (claimed: bool)
      modifies this
      ensures (State(), claimed) == Spec.Claim(old(State()), id)
    {
      claimed := id in jobs && jobs[id].status.Pending?;
      if claimed {
        jobs := jobs[id := jobs[id].(status := Running)];
      }
    }

    method FinishWithPublicMessage(id: string, status: Status, message: Message, now: nat)
      modifies this
      ensures State() == Spec.Finish(old(State()), id, status, message, now)
    {
      if id !in jobs || IsTerminal(jobs[id].status) {
        return;
      }
      var job := jobs[id];
      var final := if job.cancelRequested && !status.RecoveryRequired? then Cancelled else status;
      jobs := jobs[id := job.(status := final, message := message, finishedAt := if IsTerminal(final) then now else 0)];
    }
  }
}
