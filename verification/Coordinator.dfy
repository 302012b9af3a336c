/** The admission coordinator as an object. A method is one critical section:
    from taking the lock, or waking up, to returning or going to sleep. */
module Coordinator {
  import opened Lifecycle
  import opened LifecycleJobs
  import Jobs = JobTable
  import Spec = Coordination

  /** The maintenance marker and the lifecycle journal: present or not. */
  class StateFiles {
    var marker: bool
    var journal: bool

    constructor (marker: bool, journal: bool)
      ensures this.marker == marker && this.journal == journal
    {
      this.marker, this.journal := marker, journal;
    }
  }

  class OperationCoordinator {
    const files: StateFiles
    const jobs: LifecycleJobManager
    var closed: bool
    var journalPending: bool
    var active: Option<nat>
    var preparing: Option<Spec.Preparation>
    var preparationSettlementPending: bool
    var maintenanceLease: Option<Spec.MaintenanceLease>
    var cancelled: set<nat>
    var spent: set<nat>
    var broadcasts: nat

    function State(): Spec.Coord
      reads this
    {
      Spec.Coord(closed, journalPending, active, preparing, preparationSettlementPending, maintenanceLease, cancelled,
                 spent, broadcasts)
    }

    /** What must hold whenever the lock is free: whatever should keep the
        barrier closed does. */
    ghost predicate FailsClosed()
      reads this, files
    {
      && (files.marker ==> closed)
      && (preparationSettlementPending ==> closed)
      && (files.journal && active.None? ==> closed)
    }

    constructor (files: StateFiles, jobs: LifecycleJobManager)
      ensures this.files == files && this.jobs == jobs
      ensures State() == Spec.Startup(files.marker, files.journal) && FailsClosed()
    {
      this.files, this.jobs := files, jobs;
      closed, journalPending := files.marker || files.journal, files.journal;
      active, preparing, preparationSettlementPending, maintenanceLease := None, None, false, None;
      cancelled, spent, broadcasts := {}, {}, 0;
    }

    method Observe(marker: bool, journal: bool)
      requires FailsClosed()
      modifies this
      ensures State() == Spec.Observe(old(State()), marker, journal) && FailsClosed()
    {
      if marker {
        closed := true;
      }
      if journal && active.None? {
        closed, journalPending := true, true;
      }
    }

    /** `marker` and `journal` were read before the lock was taken; a woken
        caller passes `first` as false and its reads are not merged again. */
    method Prepare(first: bool, marker: bool, journal: bool, p: Spec.Preparation) returns (turn: Spec.Turn)
      requires FailsClosed()
      modifies this
      ensures (State(), turn) ==
          Spec.PrepareTurn(if first then Spec.Observe(old(State()), marker, journal) else old(State()), p)
      ensures FailsClosed()
    {
      if first {
        Observe(marker, journal);
      }
      if preparing.Some? && !closed {
        return Spec.Waiting;
      }
      if preparationSettlementPending || (journalPending && active.None?) || preparing.Some? {
        return Spec.Refused;
      }
      if p.kind.ResetKind? && p.attempt != "" && !closed {
        return Spec.Refused;
      }
      if closed && (!Spec.LeasedKind(p) || p.operation == "" || p.attempt == "") {
        return Spec.Refused;
      }
      preparing := Some(p.(refused := closed && !Spec.Presents(maintenanceLease, p)));
      return Spec.Granted;
    }

    method Promote(first: bool, marker: bool, journal: bool, p: Spec.Preparation, job: string) returns (turn: Spec.Turn)
      requires FailsClosed()
      modifies this, jobs
      ensures FailsClosed()
      ensures var c := if first then Spec.Observe(old(State()), marker, journal) else old(State());
        var asked := Spec.Promotable(c, p) && c.active.None?;
        var (table, claimed) := Jobs.Claim(old(jobs.State()), job);
        && (State(), turn) == Spec.PromoteTurn(c, p, job, claimed)
        && jobs.State() == if asked then table else old(jobs.State())
    {
      if first {
        Observe(marker, journal);
      }
      if !Spec.Promotable(State(), p) {
        return Spec.Refused;
      }
      if active.Some? {
        return Spec.Waiting;
      }
      var claimed := jobs.Claim(job);
      if !claimed {
        return Spec.NotPending;
      }
      if closed {
        maintenanceLease := Some(maintenanceLease.value.(consumed := true, operation := p.operation, job := job));
      }
      active, preparing := Some(p.id), None;
      spent, broadcasts := spent + {p.id}, broadcasts + 1;
      return Spec.Granted;
    }

    method Complete(id: nat, settled: bool)
      requires FailsClosed()
      modifies this
      ensures State() == Spec.Complete(old(State()), id, settled) && FailsClosed()
    {
      if id !in spent {
        spent, cancelled := spent + {id}, cancelled + {id};
        if !settled {
          preparationSettlementPending, closed := true, true;
        }
        if preparing.Some? && preparing.value.id == id {
          preparing := None;
        }
        broadcasts := broadcasts + 1;
      }
    }

    method MarkPreparationSettlementPending()
      modifies this
      requires FailsClosed()
      ensures State() == Spec.MarkSettlementPending(old(State())) && FailsClosed()
    {
      preparationSettlementPending, closed, broadcasts := true, true, broadcasts + 1;
    }

    /** An empty `job` asks for a lease without a job. On a refusal the job, if
        any, is cancelled after the lock is released. */
    method Begin(id: nat, job: string, now: nat) returns (turn: Spec.Turn)
      requires FailsClosed()
      modifies this, jobs
      ensures FailsClosed()
      ensures turn.Granted? ==> !closed && !files.marker && !files.journal
      ensures var (table, claimed) := Jobs.Claim(old(jobs.State()), job);
        && (State(), turn) == Spec.BeginTurn(old(State()), id, files.journal, job == "" || claimed)
        && (jobs.State() == match turn
            case Granted => if job == "" then old(jobs.State()) else table
            case Refused => if job == "" then old(jobs.State()) else Jobs.RequestCancel(old(jobs.State()), job, now).0
            case _ => old(jobs.State()))
    {
      if (active.Some? || preparing.Some?) && !closed {
        return Spec.Waiting;
      }
      if preparationSettlementPending || closed || journalPending || files.journal {
        closed := true;
        if job != "" {
          var _ := jobs.RequestCancel(job, now);
        }
        return Spec.Refused;
      }
      if job != "" {
        var claimed := jobs.Claim(job);
        if !claimed {
          return Spec.NotPending;
        }
      }
      active := Some(id);
      return Spec.Granted;
    }

    method BeginRecovery(id: nat) returns (turn: Spec.Turn)
      requires FailsClosed()
      modifies this
      ensures (State(), turn) == Spec.BeginRecoveryTurn(old(State()), id, files.journal) && FailsClosed()
    {
      if active.Some? || preparing.Some? {
        return Spec.Waiting;
      }
      if !journalPending && !files.journal {
        return Spec.Refused;
      }
      closed, journalPending, active := true, true, Some(id);
      return Spec.Granted;
    }

    method MarkLifecycleJournalPending()
      requires FailsClosed()
      modifies this
      ensures State() == Spec.MarkJournalPending(old(State())) && FailsClosed()
    {
      journalPending := true;
      if active.None? {
        closed := true;
      }
      broadcasts := broadcasts + 1;
    }

    /** Called once the journal is off the disk. */
    method ClearLifecycleJournalPending()
      requires FailsClosed() && !files.journal
      modifies this
      ensures State() == Spec.ClearJournalPending(old(State()), files.marker) && FailsClosed()
    {
      journalPending := false;
      if !preparationSettlementPending && !files.marker {
        closed := false;
      }
      broadcasts := broadcasts + 1;
    }

    method LifecycleRecoveryPending() returns (pending: bool)
      requires FailsClosed()
      modifies this
      ensures State() == Spec.Probe(old(State()), files.journal) && FailsClosed()
      ensures pending <==> journalPending
    {
      pending := journalPending || files.journal;
      if pending {
        journalPending := true;
      }
    }

    method Done(id: nat)
      modifies this
      requires FailsClosed()
      ensures State() == Spec.Done(old(State()), id, files.journal) && FailsClosed()
      ensures old(active) == Some(id) && files.journal ==> closed
    {
      cancelled := cancelled + {id};
      if active == Some(id) {
        if journalPending || files.journal {
          closed := true;
        }
        active := None;
        broadcasts := broadcasts + 1;
      }
    }

    /** The first half: the marker, the barrier and the cancellations. If the
        marker cannot be written nothing changes. */
    method EnterMaintenance(written: bool) returns (ok: bool)
      requires FailsClosed()
      modifies this, files
      ensures ok <==> old(files.marker) || written
      ensures files.journal == old(files.journal) && files.marker == ok
      ensures State() == (if ok then Spec.EnterMaintenance(old(State())) else old(State())) && FailsClosed()
    {
      if !files.marker {
        if !written {
          return false;
        }
        files.marker := true;
      }
      closed := true;
      if preparing.Some? {
        cancelled := cancelled + {preparing.value.id};
      }
      if active.Some? {
        cancelled := cancelled + {active.value};
      }
      broadcasts := broadcasts + 1;
      return true;
    }

    /** The second half, after the lock was dropped: the barrier may have been
        reopened in between, so no claim about `closed` is made. */
    method AwaitDrain(token: string) returns (turn: Spec.DrainTurn)
      requires FailsClosed()
      modifies this
      ensures (State(), turn) == Spec.DrainedTurn(old(State()), token) && FailsClosed()
    {
      if active.Some? || preparing.Some? {
        return Spec.StillBusy;
      }
      if maintenanceLease.None? {
        maintenanceLease := Some(Spec.MaintenanceLease(token, "", "", false));
      } else if maintenanceLease.value.consumed {
        return Spec.LeaseUsed;
      }
      return Spec.Issued(maintenanceLease.value.token);
    }

    method EnterMaintenanceIfIdle(token: string, outcome: WriteOutcome) returns (ok: bool)
      requires FailsClosed()
      modifies this, files
      ensures (State(), ok) == Spec.EnterIfIdle(old(State()), old(files.marker), old(files.journal), token, outcome)
      ensures files.journal == old(files.journal)
      ensures files.marker ==
          (old(files.marker) || (old(Spec.Idle(State(), files.marker, files.journal)) && Visible(outcome)))
      ensures FailsClosed()
    {
      if
        active.Some? || preparing.Some? || preparationSettlementPending || closed || journalPending
        || files.marker || files.journal
      {
        return false;
      }
      if Visible(outcome) {
        files.marker := true;
      }
      if !outcome.Persisted? {
        if files.marker {
          closed, maintenanceLease, broadcasts := true, None, broadcasts + 1;
        }
        return false;
      }
      closed, maintenanceLease, broadcasts := true, Some(Spec.MaintenanceLease(token, "", "", false)), broadcasts + 1;
      return true;
    }

    method LeaveMaintenance(removable: bool) returns (turn: Spec.LeaveTurn)
      requires FailsClosed()
      modifies this, files
      ensures (State(), turn) == Spec.Leave(old(State()), files.journal, removable || !old(files.marker))
      ensures files.journal == old(files.journal)
      ensures files.marker == (old(files.marker) && !turn.Opened?)
      ensures FailsClosed()
    {
      if !closed {
        return Spec.AlreadyOpen;
      }
      if active.Some? || preparing.Some? {
        return Spec.NotDrained;
      }
      if preparationSettlementPending {
        return Spec.SettlementRequired;
      }
      if journalPending || files.journal {
        closed, journalPending := true, true;
        return Spec.RecoveryNeeded;
      }
      if files.marker && !removable {
        return Spec.MarkerKept;
      }
      files.marker := false;
      maintenanceLease, closed, broadcasts := None, false, broadcasts + 1;
      return Spec.Opened;
    }
  }
}
