/** Every step of every thread keeps the invariant. */
module ControlPlaneSteps {
  import opened Lifecycle
  import opened ControlPlane
  import opened ControlPlaneInvariant
  import opened ControlPlaneFrames
  import C = Coordination
  import S = OperationStore

  ghost predicate Others(w: World, v: World, t: nat) {
    forall u :: u != t ==>
      (u in v.threads <==> u in w.threads) && (u in w.threads && u in v.threads ==> v.threads[u] == w.threads[u])
  }

  lemma OthersOk(w: World, v: World, t: nat)
    requires Inv(w) && Frame(w, v, t) && Others(w, v, t) && v.author.Keys == v.st.operations.Keys
    requires t in v.threads ==> ThreadOk(v, t)
    ensures ThreadsOk(v)
  {
    forall u | u in v.threads ensures ThreadOk(v, u) {
      if u != t { OtherThreadOk(w, v, t, u); }
    }
  }

  /** Whatever answered for a record still does. */
  ghost predicate StillRepairable(w: World, v: World) {
    forall id :: AwaitsRepair(w, id) && Live(v, id) ==>
      AwaitsRepair(v, id) || (id in v.author && v.author[id] in v.threads)
  }

  lemma OrphansOk(w: World, v: World, t: nat)
    requires Inv(w) && Frame(w, v, t) && Others(w, v, t) && StillRepairable(w, v)
    requires v.up == w.up
    requires t in w.threads && t !in v.threads ==> MayLeave(w, t) && v.st.operations.Keys <= w.st.operations.Keys
    ensures NoOrphans(v)
  {
    forall id | v.up && id in v.st.operations && Live(v, id) ensures Accounted(v, id) {
      assert RecordStep(w, v, t, id);
      if id in w.st.operations {
        assert Live(w, id) && Accounted(w, id);
        if w.author[id] == t && t in w.threads && t !in v.threads {
          assert ThreadOk(w, t);
          assert Authorship(w, t);
          assert id == w.threads[t].request.operation;
          if w.threads[t].leased && HandedOver(w, t, id) { assert AwaitsRepair(w, id); }
        }
      }
    }
  }

  // ------------------------------------------- Steps that move only a thread

  /** Only `t`'s own state changes, apart from the lists that only grow. */
  ghost predicate Quietly(w: World, v: World, t: nat) {
    && t in w.threads && t in v.threads
    && v.up == w.up && v.c == w.c && v.marker == w.marker && v.journal == w.journal
    && v.st == w.st && v.limits == w.limits && v.author == w.author && v.next == w.next && v.sleeping == w.sleeping
    && v.threads == w.threads[t := v.threads[t]]
    && w.leaked <= v.leaked <= w.leaked + {t}
    && w.started <= v.started <= w.started + {t}
    && v.raced == w.raced && v.issued == w.issued && v.consumed == w.consumed
  }

  /** A thread keeps what it holds from one point to the next. */
  predicate Continues(a: Thread, b: Thread) {
    && b.role == a.role && b.leased == a.leased && b.request == a.request
    && Engaged(b) == Engaged(a)
    && (b.pc.SecondLookup? || b.pc.SecondFlush? || b.pc.Tombstone? || b.pc.ReserveRecord? ==>
          a.pc.SecondLookup? || a.pc.SecondFlush? || a.pc.Tombstone? || a.pc.ReserveRecord?)
  }

  lemma QuietFrame(w: World, v: World, t: nat)
    requires Inv(w) && Quietly(w, v, t)
    ensures Frame(w, v, t) && Others(w, v, t)
  {
    forall id | id in w.st.operations || id in v.st.operations ensures RecordStep(w, v, t, id) {
      assert id in w.author;
    }
  }

  lemma QuietShared(w: World, v: World, t: nat)
    requires Inv(w) && Quietly(w, v, t) && v.threads[t].leased == w.threads[t].leased
    requires v.threads[t].request == w.threads[t].request || w.threads[t].role.Repairer?
    ensures FailsClosed(v) && HoldersExist(v) && RecordsOk(v) && DeferredOnward(v) && JournalOk(v) && TokensOk(v)
  {
    assert ThreadOk(w, t);
  }

  lemma QuietSleepers(w: World, v: World, t: nat)
    requires Inv(w) && Quietly(w, v, t) && !Asleep(w, t)
    ensures SleepersOk(v)
  {
    forall u | u in v.sleeping ensures v.sleeping[u] <= v.c.broadcasts && (Asleep(v, u) ==> SleepsFor(v, u)) {
      if u != t { assert Asleep(v, u) ==> SleepsFor(w, u); }
    }
  }

  lemma QuietInv(w: World, v: World, t: nat)
    requires Inv(w) && Quietly(w, v, t) && !Asleep(w, t) && ThreadOk(v, t) && v.threads[t].leased == w.threads[t].leased
    requires v.threads[t].request == w.threads[t].request || w.threads[t].role.Repairer?
    ensures Inv(v)
  {
    QuietFrame(w, v, t);
    QuietShared(w, v, t);
    QuietSleepers(w, v, t);
    assert StillRepairable(w, v);
    OthersOk(w, v, t);
    OrphansOk(w, v, t);
  }

  lemma ContinuingOk(w: World, v: World, t: nat)
    requires Inv(w) && Quietly(w, v, t) && Continues(w.threads[t], v.threads[t])
    requires Shape(v.threads[t]) && Relies(v, t) && Listed(v, t, v.threads[t])
    ensures ThreadOk(v, t)
  {
    assert ThreadOk(w, t);
  }

  /** A quiet step that leaves its thread in order. */
  ghost predicate Lands(w: World, v: World, t: nat) {
    && Quietly(w, v, t) && Continues(w.threads[t], v.threads[t])
    && Shape(v.threads[t]) && Relies(v, t) && Listed(v, t, v.threads[t])
  }

  lemma LandsInv(w: World, v: World, t: nat)
    requires Inv(w) && Lands(w, v, t) && !Asleep(w, t)
    ensures Inv(v)
  {
    ContinuingOk(w, v, t);
    QuietInv(w, v, t);
  }

  ghost predicate Ready(w: World, t: nat) {
    t in w.threads && ThreadOk(w, t) && w.author.Keys >= w.st.operations.Keys
  }

  /** The thread arrives at `th` in order. */
  ghost predicate Arrives(w: World, t: nat, th: Thread)
    requires t in w.threads && w.author.Keys >= w.st.operations.Keys
  {
    && Continues(w.threads[t], th) && Shape(th)
    && Relies(Perform(w, t, Stay(th)), t)
    && Listed(Perform(w, t, Stay(th)), t, th)
  }

  lemma StayInv(w: World, t: nat, th: Thread)
    requires Inv(w) && t in w.threads && w.author.Keys >= w.st.operations.Keys && !Asleep(w, t) && Arrives(w, t, th)
    ensures Inv(Perform(w, t, Stay(th)))
  {
    LandsInv(w, Perform(w, t, Stay(th)), t);
  }

  lemma SecondLookArrives(w: World, t: nat, th: Thread)
    requires Ready(w, t) && th == w.threads[t] && th.pc.SecondLookup?
    ensures Arrives(w, t, th.(pc := SecondLook(w, th)))
  {
  }

  lemma TombstoneArrives(w: World, t: nat, th: Thread)
    requires Ready(w, t) && th == w.threads[t] && th.pc.TombstoneLookup?
    ensures Arrives(w, t, th.(pc := Completing, confirmed := TombstoneShows(w, th.request)))
  {
  }

  lemma ReservationArrives(w: World, t: nat, th: Thread)
    requires Ready(w, t) && th == w.threads[t] && th.pc.ReserveLookup?
    ensures Arrives(w, t, th.(pc := ReservationLook(w, th)))
  {
  }

  lemma JobArrives(w: World, t: nat, th: Thread, ch: Choice)
    requires Ready(w, t) && th == w.threads[t] && th.pc.ReserveJob? && ch.http >= 400
    ensures Arrives(w, t, TakeJob(th, ch))
  {
    JobTaken(w, t, th, ch.job);
    JobRefused(w, t, th, ch.http);
    JobRefused(w, t, th, 200);
  }

  lemma JobTaken(w: World, t: nat, th: Thread, job: string)
    requires Ready(w, t) && th == w.threads[t] && th.pc.ReserveJob?
    ensures Arrives(w, t, th.(pc := ReadFilesAgain, job := job))
  {
  }

  lemma JobRefused(w: World, t: nat, th: Thread, http: nat)
    requires Ready(w, t) && th == w.threads[t] && th.pc.ReserveJob? && (http >= 400 || http == 200)
    ensures Arrives(w, t, th.(pc := Settling, http := http))
  {
  }

  lemma LookArrives(w: World, t: nat, th: Thread)
    requires Ready(w, t) && th == w.threads[t]
    ensures th.pc.ReadFiles? ==> Arrives(w, t, Look(w, th, AwaitPrepare(true)))
    ensures th.pc.ReadFilesAgain? ==> Arrives(w, t, Look(w, th, AwaitPromote(true)))
  {
  }

  lemma PreflightFailureArrives(w: World, t: nat, th: Thread)
    requires Ready(w, t) && th == w.threads[t] && th.pc.ReadFilesAgain?
    ensures Arrives(w, t, Reject(th, 503))
  {
  }

  lemma StartArrives(w: World, t: nat, th: Thread, ch: Choice)
    requires Ready(w, t) && th == w.threads[t] && th.pc.Admitted? && ch.http >= 400
    ensures Arrives(w, t, StartWorker(th, ch))
  {
    if !ch.ok { StartFailureArrives(w, t, th, ch.http); }
  }

  lemma StartFailureArrives(w: World, t: nat, th: Thread, http: nat)
    requires Ready(w, t) && th == w.threads[t] && th.pc.Admitted? && http >= 400
    ensures Arrives(w, t, th.(pc := Settling, http := http))
  {
  }

  lemma FinishWorkArrives(w: World, t: nat, th: Thread, ch: Choice)
    requires Ready(w, t) && th == w.threads[t] && th.pc.Journaled?
    ensures Arrives(w, t, th.(pc := FinishWork(w, t, th, ch)))
  {
  }

  lemma JudgingArrives(w: World, t: nat, th: Thread)
    requires Ready(w, t) && th == w.threads[t] && th.pc.Judging?
    ensures Arrives(w, t, th.(pc := Transitioning(FailureGoal(w, t, th), AfterWork)))
  {
  }

  lemma WorkFailureArrives(w: World, t: nat, th: Thread)
    requires Ready(w, t) && th == w.threads[t] && th.pc.Working?
    ensures Arrives(w, t, th.(pc := if th.role.Mutator? then Releasing else Judging))
  {
  }

  lemma CancelConfirmed(w: World, t: nat, th: Thread, goal: S.Goal)
    requires Ready(w, t) && th == w.threads[t] && th.pc == Confirming(goal, AfterCancel)
    ensures Arrives(w, t, Resume(th, goal, AfterCancel, S.Shows(w.st.operations, th.request.operation, goal)))
  {
  }

  lemma RepairConfirmed(w: World, t: nat, th: Thread, goal: S.Goal)
    requires Ready(w, t) && th == w.threads[t] && th.pc == Confirming(goal, AfterRepair)
    ensures Arrives(w, t, Resume(th, goal, AfterRepair, S.Shows(w.st.operations, th.request.operation, goal)))
  {
  }

  lemma RepairFailureConfirmed(w: World, t: nat, th: Thread, goal: S.Goal)
    requires Ready(w, t) && th == w.threads[t] && th.pc == Confirming(goal, AfterRepairFailure)
    ensures Arrives(w, t, Resume(th, goal, AfterRepairFailure, S.Shows(w.st.operations, th.request.operation, goal)))
  {
  }

  lemma ResumeArrives(w: World, t: nat, th: Thread, goal: S.Goal, after: After)
    requires Ready(w, t) && th == w.threads[t] && th.pc == Confirming(goal, after)
    ensures Arrives(w, t, Resume(th, goal, after, S.Shows(w.st.operations, th.request.operation, goal)))
  {
    match after
    case AfterStart => StartConfirmed(w, t, th, goal);
    case AfterWork => WorkConfirmed(w, t, th, goal);
    case AfterReject => RejectConfirmed(w, t, th, goal);
    case AfterCancel => CancelConfirmed(w, t, th, goal);
    case AfterRepair => RepairConfirmed(w, t, th, goal);
    case AfterRepairFailure => RepairFailureConfirmed(w, t, th, goal);
  }

  lemma StartConfirmed(w: World, t: nat, th: Thread, goal: S.Goal)
    requires Ready(w, t) && th == w.threads[t] && th.pc == Confirming(goal, AfterStart)
    ensures Arrives(w, t, Resume(th, goal, AfterStart, S.Shows(w.st.operations, th.request.operation, goal)))
  {
  }

  lemma WorkConfirmed(w: World, t: nat, th: Thread, goal: S.Goal)
    requires Ready(w, t) && th == w.threads[t] && th.pc == Confirming(goal, AfterWork)
    ensures Arrives(w, t, Resume(th, goal, AfterWork, S.Shows(w.st.operations, th.request.operation, goal)))
  {
  }

  lemma RejectConfirmed(w: World, t: nat, th: Thread, goal: S.Goal)
    requires Ready(w, t) && th == w.threads[t] && th.pc == Confirming(goal, AfterReject)
    ensures Arrives(w, t, Resume(th, goal, AfterReject, S.Shows(w.st.operations, th.request.operation, goal)))
  {
  }

  lemma LegacyResumeArrives(w: World, t: nat, th: Thread, goal: S.Goal, after: After)
    requires Ready(w, t) && th == w.threads[t] && th.pc == Transitioning(goal, after) && th.request.operation == ""
    ensures Arrives(w, t, Resume(th, goal, after, true))
  {
    match after
    case AfterWork => LegacyWorkArrives(w, t, th, goal);
    case AfterRepair => LegacyRepairArrives(w, t, th, goal);
    case AfterStart => LegacyStartArrives(w, t, th, goal);
    case AfterCancel => LegacyCancelArrives(w, t, th, goal);
    case AfterReject => LegacyRejectArrives(w, t, th, goal);
    case AfterRepairFailure => LegacyFailureArrives(w, t, th, goal);
  }

  lemma LegacyStartArrives(w: World, t: nat, th: Thread, goal: S.Goal)
    requires Ready(w, t) && th == w.threads[t] && th.pc == Transitioning(goal, AfterStart) && th.request.operation == ""
    ensures Arrives(w, t, Resume(th, goal, AfterStart, true))
  {
  }

  lemma LegacyCancelArrives(w: World, t: nat, th: Thread, goal: S.Goal)
    requires Ready(w, t) && th == w.threads[t] && th.pc == Transitioning(goal, AfterCancel)
    requires th.request.operation == ""
    ensures Arrives(w, t, Resume(th, goal, AfterCancel, true))
  {
  }

  lemma LegacyRejectArrives(w: World, t: nat, th: Thread, goal: S.Goal)
    requires Ready(w, t) && th == w.threads[t] && th.pc == Transitioning(goal, AfterReject)
    requires th.request.operation == ""
    ensures Arrives(w, t, Resume(th, goal, AfterReject, true))
  {
  }

  lemma LegacyFailureArrives(w: World, t: nat, th: Thread, goal: S.Goal)
    requires Ready(w, t) && th == w.threads[t] && th.pc == Transitioning(goal, AfterRepairFailure)
    requires th.request.operation == ""
    ensures Arrives(w, t, Resume(th, goal, AfterRepairFailure, true))
  {
  }

  lemma LegacyRepairArrives(w: World, t: nat, th: Thread, goal: S.Goal)
    requires Ready(w, t) && th == w.threads[t] && th.pc == Transitioning(goal, AfterRepair)
    requires th.request.operation == ""
    ensures Arrives(w, t, Resume(th, goal, AfterRepair, true))
  {
  }

  lemma LegacyWorkArrives(w: World, t: nat, th: Thread, goal: S.Goal)
    requires Ready(w, t) && th == w.threads[t] && th.pc == Transitioning(goal, AfterWork) && th.request.operation == ""
    ensures Arrives(w, t, Resume(th, goal, AfterWork, true))
  {
  }

  lemma SettleArrives(w: World, t: nat, th: Thread)
    requires Ready(w, t) && th == w.threads[t] && th.pc.Settling?
    ensures Arrives(w, t, Settle(w, t, th))
  {
    if Rejectable(w, t, th.request.operation) && th.request.operation != "" && th.http >= 400 {
      RejectableArrives(w, t, th);
    } else {
      SettledArrives(w, t, th, Settle(w, t, th).confirmed);
    }
  }

  lemma SettledArrives(w: World, t: nat, th: Thread, confirmed: bool)
    requires Ready(w, t) && th == w.threads[t] && th.pc.Settling?
    requires confirmed && th.request.operation != "" && th.http >= 400 ==> !Live(w, th.request.operation)
    ensures Arrives(w, t, th.(pc := Finishing, confirmed := confirmed))
  {
  }

  lemma RejectableArrives(w: World, t: nat, th: Thread)
    requires Ready(w, t) && th == w.threads[t] && th.pc.Settling? && Rejectable(w, t, th.request.operation)
    requires th.request.operation != "" && th.http >= 400
    ensures Arrives(w, t, th.(pc := Transitioning(RejectedGoal(th), AfterReject)))
  {
    assert th.leased ==> Steady(w, t, th.request.operation);
    assert !th.leased ==> NoOneElses(w, t, th.request.operation);
  }

  lemma FinishArrives(w: World, t: nat, th: Thread)
    requires Ready(w, t) && th == w.threads[t] && th.pc.Finishing? && th.confirmed
    ensures Arrives(w, t, th.(pc := Completing))
  {
  }

  lemma KeptJournalArrives(w: World, t: nat, th: Thread, purpose: Purpose)
    requires Ready(w, t) && th == w.threads[t] && th.pc == Clearing(purpose)
    ensures Arrives(w, t, th.(pc := AfterClearing(purpose, false)))
  {
  }

  lemma ReadFailureArrives(w: World, t: nat, th: Thread)
    requires Ready(w, t) && th == w.threads[t] && th.pc.ReadingJournal?
    ensures Arrives(w, t, th.(pc := Releasing))
  {
  }

  lemma LinkArrives(w: World, t: nat, th: Thread, ch: Choice)
    requires Ready(w, t) && th == w.threads[t] && th.pc.CheckingLink?
    ensures Arrives(w, t, th.(pc := CheckLink(w, th, ch)))
  {
  }

  lemma VerdictArrives(w: World, t: nat, th: Thread, ch: Choice)
    requires Ready(w, t) && th == w.threads[t] && th.pc.Repairing?
    ensures Arrives(w, t, th.(pc := RepairVerdict(th, ch)))
  {
  }

  lemma FirstLookKeeps(w: World, t: nat, th: Thread)
    requires Ready(w, t) && th == w.threads[t] && th.pc.FirstLookup?
    ensures FirstLook(w, th) == Leave || (FirstLook(w, th).Stay? && Arrives(w, t, FirstLook(w, th).thread))
  {
  }

  /** A repair takes the operation of the journal it reads as its own. */
  lemma ReadJournalKeeps(w: World, v: World, t: nat, th: Thread)
    requires Inv(w) && Ready(w, t) && th == w.threads[t] && th.pc.ReadingJournal? && !Asleep(w, t) && w.journal.Some?
    requires
      var linked := th.request.(operation := w.journal.value.operation);
      v == w.(threads := w.threads[t := th.(pc := CheckingLink, request := linked)])
    ensures Inv(v)
  {
    ReadJournalOk(w, v, t, th);
    QuietInv(w, v, t);
  }

  lemma ReadJournalOk(w: World, v: World, t: nat, th: Thread)
    requires HoldersExist(w) && Ready(w, t) && th == w.threads[t] && th.pc.ReadingJournal? && w.journal.Some?
    requires
      var linked := th.request.(operation := w.journal.value.operation);
      v == w.(threads := w.threads[t := th.(pc := CheckingLink, request := linked)])
    ensures ThreadOk(v, t)
  {
  }

  // ------------------------------------------------------ Critical sections

  /** Only the coordinator and `t` change, and the list of promotions over a journal. */
  ghost predicate Critically(w: World, v: World, t: nat) {
    && t in w.threads
    && v.up == w.up && v.marker == w.marker && v.journal == w.journal
    && v.st == w.st && v.limits == w.limits && v.author == w.author && v.next == w.next
    && v.leaked == w.leaked && v.started == w.started && w.raced <= v.raced <= w.raced + {t}
    && Others(w, v, t) && SharedStep(w, v, t)
    && (t in v.threads && w.threads[t].leased ==> v.threads[t].leased)
  }

  lemma CriticalFrame(w: World, v: World, t: nat)
    requires Inv(w) && Critically(w, v, t)
    ensures Frame(w, v, t) && StillRepairable(w, v)
  {
    forall id | id in w.st.operations || id in v.st.operations ensures RecordStep(w, v, t, id) {
      assert id in w.author;
    }
  }

  lemma CriticalShared(w: World, v: World, t: nat)
    requires Inv(w) && Critically(w, v, t)
    ensures RecordsOk(v) && DeferredOnward(v) && JournalOk(v)
  {
  }

  lemma CriticalInv(w: World, v: World, t: nat)
    requires Inv(w) && Critically(w, v, t)
    requires if t in v.threads then ThreadOk(v, t) else MayLeave(w, t)
    requires FailsClosed(v) && HoldersExist(v) && TokensOk(v) && SleepersOk(v)
    ensures Inv(v)
  {
    CriticalFrame(w, v, t);
    CriticalShared(w, v, t);
    OthersOk(w, v, t);
    OrphansOk(w, v, t);
  }

  /** A broadcast wakes everybody; without one, sleepers keep their reason. */
  lemma SleepersStay(w: World, v: World, t: nat)
    requires Inv(w) && Critically(w, v, t)
    requires v.c.broadcasts >= w.c.broadcasts
    requires v.c.broadcasts == w.c.broadcasts ==>
      (w.c.preparing.Some? ==> v.c.preparing.Some?) && (w.c.active.Some? ==> v.c.active.Some?)
    requires v.sleeping == w.sleeping && !Asleep(w, t)
    ensures SleepersOk(v)
  {
    forall u | u in v.sleeping ensures v.sleeping[u] <= v.c.broadcasts && (Asleep(v, u) ==> SleepsFor(v, u)) {
      if Asleep(v, u) { assert Asleep(w, u) && SleepsFor(w, u); }
    }
  }

  lemma FallingAsleep(w: World, v: World, t: nat)
    requires Inv(w) && Critically(w, v, t) && v.c.broadcasts == w.c.broadcasts
    requires v.c.preparing == w.c.preparing && v.c.active == w.c.active
    requires v.sleeping == w.sleeping[t := w.c.broadcasts] && SleepsFor(v, t)
    ensures SleepersOk(v)
  {
    forall u | u in v.sleeping ensures v.sleeping[u] <= v.c.broadcasts && (Asleep(v, u) ==> SleepsFor(v, u)) {
      if u != t && Asleep(v, u) { assert Asleep(w, u) && SleepsFor(w, u); }
    }
  }

  /** Nothing but the flags and the broadcast count of the coordinator changes,
      and `t` goes on with what it holds. */
  ghost predicate Flagging(w: World, v: World, t: nat) {
    && t in w.threads && t in v.threads
    && v == w.(c := v.c, threads := w.threads[t := v.threads[t]])
    && v.c == w.c.(closed := v.c.closed, journalPending := v.c.journalPending,
                   settlementPending := v.c.settlementPending, broadcasts := w.c.broadcasts + 1)
    && (w.c.settlementPending ==> v.c.settlementPending)
    && Continues(w.threads[t], v.threads[t])
  }

  lemma FlaggingCritical(w: World, v: World, t: nat)
    requires Inv(w) && Flagging(w, v, t)
    ensures Critically(w, v, t) && HoldersExist(v) && TokensOk(v)
  {
  }

  lemma FlaggingThread(w: World, v: World, t: nat)
    requires Inv(w) && Flagging(w, v, t) && Shape(v.threads[t]) && Relies(v, t) && Listed(w, t, v.threads[t])
    ensures ThreadOk(v, t)
  {
    assert ThreadOk(w, t);
  }

  lemma FlaggingInv(w: World, v: World, t: nat)
    requires Inv(w) && Flagging(w, v, t) && !Asleep(w, t) && FailsClosed(v)
    requires Shape(v.threads[t]) && Relies(v, t) && Listed(w, t, v.threads[t])
    ensures Inv(v)
  {
    FlaggingCritical(w, v, t);
    FlaggingThread(w, v, t);
    SleepersStay(w, v, t);
    CriticalInv(w, v, t);
  }

  /** What a section that only flags must establish for its own thread. */
  ghost predicate FlagsWell(w: World, v: World, t: nat) {
    Flagging(w, v, t) && FailsClosed(v) && Shape(v.threads[t]) && Relies(v, t) && Listed(w, t, v.threads[t])
  }

  lemma MarkingFlags(w: World, t: nat, th: Thread)
    requires FailsClosed(w) && Ready(w, t) && th == w.threads[t] && th.pc.MarkingJournal?
    ensures FlagsWell(w, Perform(w, t, Coordinate(C.MarkJournalPending(w.c), th.(pc := Journaled))), t)
  {
  }

  lemma ClearingPendingFlags(w: World, t: nat, th: Thread, purpose: Purpose)
    requires FailsClosed(w) && Ready(w, t) && th == w.threads[t] && th.pc == ClearingPending(purpose)
    ensures FlagsWell(w,
                      Perform(w, t,
                              Coordinate(C.ClearJournalPending(w.c, w.marker),
                                         th.(pc := AfterClearing(purpose, true)))), t)
  {
  }

  lemma SettlementFlags(w: World, t: nat, th: Thread, pc: PC)
    requires FailsClosed(w) && Ready(w, t) && th == w.threads[t]
    requires (th.pc.MarkingWork? && pc == Releasing) || (th.pc.Finishing? && pc == Completing)
    ensures FlagsWell(w, Perform(w, t, Coordinate(C.MarkSettlementPending(w.c), th.(pc := pc))), t)
  {
  }

  /** The thread ends in a section of the coordinator. */
  ghost predicate Departing(w: World, v: World, t: nat) {
    && t in w.threads && MayLeave(w, t)
    && v == w.(c := v.c, threads := w.threads - {t}, issued := v.issued)
    && SharedStep(w, v, t)
    && v.c.active != Some(t) && (v.c.preparing.Some? ==> v.c.preparing.value.id != t)
    && v.c.spent <= w.c.spent + {t}
    && v.c.broadcasts >= w.c.broadcasts
    && (v.c.broadcasts == w.c.broadcasts ==> v.c.preparing == w.c.preparing && v.c.active == w.c.active)
    && FailsClosed(v) && TokensOk(v)
  }

  lemma DepartingShared(w: World, v: World, t: nat)
    requires Inv(w) && Departing(w, v, t)
    ensures Critically(w, v, t) && HoldersExist(v)
  {
    assert ThreadOk(w, t);
  }

  lemma DepartingInv(w: World, v: World, t: nat)
    requires Inv(w) && Departing(w, v, t) && !Asleep(w, t)
    ensures Inv(v)
  {
    DepartingShared(w, v, t);
    SleepersStay(w, v, t);
    CriticalInv(w, v, t);
  }

  ghost predicate Sound(w: World) {
    FailsClosed(w) && TokensOk(w) && HoldersExist(w)
  }

  lemma ReleasingDeparts(w: World, t: nat)
    requires Sound(w) && Ready(w, t) && w.threads[t].pc.Releasing?
    ensures Departing(w, Perform(w, t, Depart(C.Done(w.c, t, JournalPresent(w)))), t)
  {
  }

  lemma CompletingDeparts(w: World, t: nat)
    requires Sound(w) && Ready(w, t) && w.threads[t].pc.Completing? && !w.threads[t].leased
    ensures Departing(w, Perform(w, t, Depart(C.Complete(w.c, t, w.threads[t].confirmed))), t)
  {
  }

  lemma TurnedAwayDeparts(w: World, t: nat, c: C.Coord)
    requires Sound(w) && Ready(w, t) && !Engaged(w.threads[t])
    requires c == w.c.(closed := c.closed, journalPending := c.journalPending) && (w.c.closed ==> c.closed)
    ensures Departing(w, Perform(w, t, Depart(c)), t)
  {
  }

  lemma DrainDeparts(w: World, t: nat, ch: Choice)
    requires Sound(w) && Ready(w, t) && w.threads[t].pc.AwaitDrain? && Fresh(w, ch.token) && !C.Busy(w.c)
    ensures Departing(w, Perform(w, t, DrainTurn(w, ch)), t)
  {
  }

  lemma CompletingLeased(w: World, t: nat, th: Thread)
    requires Ready(w, t) && th == w.threads[t] && th.pc.Completing? && th.leased
    ensures Perform(w, t, Complete(w, t, th)) == Perform(w, t, Stay(th.(pc := Releasing)))
    ensures Arrives(w, t, th.(pc := Releasing))
  {
  }

  /** The thread goes on in a section that gives it the preparation or the lease. */
  ghost predicate Advancing(w: World, v: World, t: nat) {
    && t in w.threads && t in v.threads
    && v == w.(c := v.c, threads := w.threads[t := v.threads[t]], raced := v.raced, consumed := v.consumed)
    && w.raced <= v.raced <= w.raced + {t}
    && SharedStep(w, v, t)
    && v.c.broadcasts >= w.c.broadcasts
    && (v.c.broadcasts == w.c.broadcasts ==>
          (w.c.preparing.Some? ==> v.c.preparing.Some?) && (w.c.active.Some? ==> v.c.active.Some?))
    && (w.threads[t].leased ==> v.threads[t].leased)
    && ThreadOk(v, t) && Sound(v)
  }

  lemma AdvancingInv(w: World, v: World, t: nat)
    requires Inv(w) && Advancing(w, v, t) && !Asleep(w, t)
    ensures Inv(v)
  {
    assert Critically(w, v, t);
    SleepersStay(w, v, t);
    CriticalInv(w, v, t);
  }

  lemma PreparedAdvances(w: World, t: nat, th: Thread, first: bool, p: C.Preparation)
    requires Sound(w) && Ready(w, t) && th == w.threads[t] && th.pc.AwaitPrepare? && w.c.preparing.None?
    requires p == th.request.(refused := p.refused)
    ensures Advancing(w,
                      Perform(w, t,
                              Coordinate(Observed(w, th, first).(preparing := Some(p)),
                                         th.(pc := SecondLookup, request := p))), t)
  {
  }

  lemma PromotedAdvances(w: World, t: nat, th: Thread, first: bool)
    requires Sound(w) && JournalOk(w) && Ready(w, t) && th == w.threads[t] && th.pc.AwaitPromote?
    requires w.c.active.None? && C.Promotable(Observed(w, th, first), th.request)
    ensures Advancing(w,
                      Perform(w, t,
                              Coordinate(C.Promoted(Observed(w, th, first), th.request, th.job),
                                         th.(pc := Admitted, leased := true))), t)
  {
  }

  lemma RejectedAdvances(w: World, t: nat, th: Thread, first: bool, http: nat)
    requires Sound(w) && Ready(w, t) && th == w.threads[t] && th.pc.AwaitPromote? && http >= 400
    ensures Advancing(w, Perform(w, t, Coordinate(Observed(w, th, first), Reject(th, http))), t)
  {
  }

  lemma BegunAdvances(w: World, t: nat, th: Thread, c: C.Coord)
    requires Sound(w) && Ready(w, t) && th == w.threads[t] && th.pc.AwaitBegin? && !C.Busy(w.c)
    requires c == w.c.(closed := c.closed, journalPending := c.journalPending, active := Some(t))
    requires (w.c.closed ==> c.closed)
    ensures Advancing(w, Perform(w, t, Coordinate(c, th.(pc := Working, leased := true))), t)
  {
  }

  lemma RecoveryAdvances(w: World, t: nat, th: Thread, c: C.Coord)
    requires Sound(w) && Ready(w, t) && th == w.threads[t] && th.pc.AwaitRecovery? && !C.Busy(w.c)
    requires c == w.c.(closed := c.closed, journalPending := c.journalPending, active := Some(t))
    requires (w.c.closed ==> c.closed)
    ensures Advancing(w, Perform(w, t, Coordinate(c, th.(pc := ReadingJournal, leased := true))), t)
  {
  }

  /** The thread goes to sleep in a section. */
  ghost predicate Dozing(w: World, v: World, t: nat) {
    && t in w.threads && t in v.threads
    && v == w.(c := v.c, threads := w.threads[t := v.threads[t]], sleeping := w.sleeping[t := w.c.broadcasts])
    && v.c == w.c.(closed := v.c.closed, journalPending := v.c.journalPending) && (w.c.closed ==> v.c.closed)
    && Continues(w.threads[t], v.threads[t])
    && Shape(v.threads[t]) && Relies(v, t) && Listed(w, t, v.threads[t])
    && SleepsFor(v, t)
  }

  lemma DozingThread(w: World, v: World, t: nat)
    requires Sound(w) && Dozing(w, v, t) && ThreadOk(w, t)
    ensures ThreadOk(v, t)
  {
  }

  lemma DozingSection(w: World, v: World, t: nat)
    requires Sound(w) && Dozing(w, v, t) && ThreadOk(w, t)
    ensures Critically(w, v, t)
  {
  }

  lemma DozingSound(w: World, v: World, t: nat)
    requires Sound(w) && Dozing(w, v, t)
    ensures Sound(v)
  {
  }

  lemma DozingInv(w: World, v: World, t: nat)
    requires Inv(w) && Dozing(w, v, t)
    ensures Inv(v)
  {
    assert ThreadOk(w, t);
    DozingThread(w, v, t);
    DozingSection(w, v, t);
    DozingSound(w, v, t);
    FallingAsleep(w, v, t);
    CriticalInv(w, v, t);
  }

  lemma WaitingDozes(w: World, t: nat, th: Thread, c: C.Coord, pc: PC)
    requires Ready(w, t) && th == w.threads[t]
    requires c == w.c.(closed := c.closed, journalPending := c.journalPending) && (w.c.closed ==> c.closed)
    requires || (th.pc.AwaitPrepare? && pc == AwaitPrepare(false) && w.c.preparing.Some?)
             || (th.pc.AwaitPromote? && pc == AwaitPromote(false) && w.c.active.Some?)
             || (pc == th.pc && (pc.AwaitBegin? || pc.AwaitRecovery? || pc.AwaitDrain?) && C.Busy(w.c))
    ensures Dozing(w, Perform(w, t, Wait(c, pc)), t)
  {
  }

  // ------------------------------------------------------- The journal file

  /** The holder of the lease writes or removes the journal. */
  ghost predicate Replacing(w: World, v: World, t: nat) {
    && t in w.threads && t in v.threads && w.threads[t].leased
    && v == w.(journal := v.journal, threads := w.threads[t := v.threads[t]])
    && Continues(w.threads[t], v.threads[t])
    && Shape(v.threads[t]) && Relies(v, t) && Listed(v, t, v.threads[t])
    && (w.journal.None? || v.journal.None?)
    && (v.journal.Some? ==>
          && v.journal.value.author == t
          && (v.journal.value.operation != "" ==> Wrote(w, t, v.journal.value.operation)))
    && (w.journal.Some? ==>
          w.journal.value.author == t || w.journal.value.operation == "" || !Live(w, w.journal.value.operation))
  }

  lemma ReplacingShared(w: World, v: World, t: nat)
    requires Inv(w) && Replacing(w, v, t)
    ensures Sound(v) && RecordsOk(v) && DeferredOnward(v) && JournalOk(v) && ThreadOk(v, t)
  {
    assert ThreadOk(w, t);
  }

  lemma ReplacingFrame(w: World, v: World, t: nat)
    requires Inv(w) && Replacing(w, v, t)
    ensures Frame(w, v, t) && Others(w, v, t)
  {
    forall id | id in w.st.operations || id in v.st.operations ensures RecordStep(w, v, t, id) {
      assert id in w.author;
    }
  }

  lemma ReplacingRepairable(w: World, v: World, t: nat)
    requires Inv(w) && Replacing(w, v, t)
    ensures StillRepairable(w, v)
  {
    forall id | AwaitsRepair(w, id) && Live(v, id)
      ensures AwaitsRepair(v, id) || (id in v.author && v.author[id] in v.threads)
    {
      assert w.st.operations[id].id == id;
    }
  }

  lemma ReplacingSleepers(w: World, v: World, t: nat)
    requires Inv(w) && Replacing(w, v, t) && !Asleep(w, t)
    ensures SleepersOk(v)
  {
    forall u | u in v.sleeping ensures v.sleeping[u] <= v.c.broadcasts && (Asleep(v, u) ==> SleepsFor(v, u)) {
      if Asleep(v, u) { assert Asleep(w, u) && SleepsFor(w, u); }
    }
  }

  lemma ReplacingInv(w: World, v: World, t: nat)
    requires Inv(w) && Replacing(w, v, t) && !Asleep(w, t)
    ensures Inv(v)
  {
    ReplacingShared(w, v, t);
    ReplacingFrame(w, v, t);
    ReplacingRepairable(w, v, t);
    ReplacingSleepers(w, v, t);
    OthersOk(w, v, t);
    OrphansOk(w, v, t);
  }

  lemma WritingReplaces(w: World, t: nat, th: Thread, pc: PC)
    requires Ready(w, t) && th == w.threads[t] && th.pc.Working? && w.journal.None?
    requires pc == MarkingJournal || pc == (if th.role.Mutator? then Releasing else Judging)
    ensures Replacing(w, Perform(w, t, Replace(Some(Journal(th.request.operation, t)), th.(pc := pc))), t)
  {
  }

  lemma RemovingReplaces(w: World, t: nat, th: Thread, purpose: Purpose, pc: PC)
    requires Ready(w, t) && th == w.threads[t] && th.pc == Clearing(purpose)
    requires pc == ClearingPending(purpose) || pc == AfterClearing(purpose, false)
    ensures Replacing(w, Perform(w, t, Replace(None, th.(pc := pc))), t)
  {
  }

  // --------------------------------------------------------- Store calls

  /** One store call by `t`, which goes on or ends. */
  ghost predicate Storing(w: World, v: World, t: nat) {
    && t in w.threads
    && w.author.Keys == w.st.operations.Keys
    && v == w.(st := v.st, author := Authors(w, t, v.st), threads := v.threads, started := v.started)
    && w.started <= v.started <= w.started + {t}
    && Others(w, v, t)
    && (if t in v.threads then
          && v.threads[t].role == w.threads[t].role && v.threads[t].leased == w.threads[t].leased
          && v.threads[t].request == w.threads[t].request
        else MayLeave(w, t) && !Engaged(w.threads[t]) && v.st.operations.Keys <= w.st.operations.Keys)
  }

  /** What the call does to the store is what one thread may do. */
  ghost predicate StoresWell(w: World, v: World, t: nat) {
    && S.StoreInv(v.st, v.limits)
    && DeferredOnward(v)
    && Frame(w, v, t)
    && StillRepairable(w, v)
  }

  lemma StoringHolders(w: World, v: World, t: nat)
    requires Sound(w) && ThreadsOk(w) && Storing(w, v, t)
    ensures Sound(v)
  {
    assert ThreadOk(w, t);
  }

  lemma StoringShared(w: World, v: World, t: nat)
    requires Inv(w) && Storing(w, v, t) && StoresWell(w, v, t)
    ensures Sound(v) && RecordsOk(v)
  {
    StoringHolders(w, v, t);
    assert ThreadOk(w, t);
  }

  lemma StoringJournal(w: World, v: World, t: nat)
    requires Inv(w) && Storing(w, v, t) && Frame(w, v, t)
    ensures JournalOk(v)
  {
    if w.journal.Some? && w.journal.value.operation != "" {
      assert Guarded(w, w.journal.value.operation);
      assert RecordStep(w, v, t, w.journal.value.operation);
    }
  }

  lemma StoringSleepers(w: World, v: World, t: nat)
    requires Inv(w) && Storing(w, v, t) && !Asleep(w, t)
    ensures SleepersOk(v)
  {
    forall u | u in v.sleeping ensures v.sleeping[u] <= v.c.broadcasts && (Asleep(v, u) ==> SleepsFor(v, u)) {
      if Asleep(v, u) { assert Asleep(w, u) && SleepsFor(w, u); }
    }
  }

  lemma StoringInv(w: World, v: World, t: nat)
    requires Inv(w) && Storing(w, v, t) && StoresWell(w, v, t) && !Asleep(w, t)
    requires t in v.threads ==> ThreadOk(v, t)
    ensures Inv(v)
  {
    StoringShared(w, v, t);
    StoringJournal(w, v, t);
    StoringSleepers(w, v, t);
    OthersOk(w, v, t);
    OrphansOk(w, v, t);
  }

  // A reservation or replay, for the thread's own request.

  /** A store call touches nothing but the store, whose records keep their authors. */
  lemma StoringSection(w: World, v: World, t: nat)
    requires Storing(w, v, t)
    ensures SharedStep(w, v, t)
  {
  }

  lemma ReplayedRecord(w: World, v: World, t: nat, request: S.Record, now: nat, id: string)
    requires RecordsOk(w) && Storing(w, v, t) && RetentionHolds(w, now)
    requires S.Replayed(w.st, v.st, w.limits, request, now) && (id in w.st.operations || id in v.st.operations)
    requires request.id !in w.st.operations ==> MayInsert(w, t, request.id)
    ensures RecordStep(w, v, t, id)
  {
    assert S.Evolves(w.st, v.st, w.limits, id, now);
  }

  lemma ReplayFrame(w: World, v: World, t: nat, request: S.Record, now: nat)
    requires RecordsOk(w) && Storing(w, v, t) && RetentionHolds(w, now)
    requires S.Replayed(w.st, v.st, w.limits, request, now)
    requires request.id !in w.st.operations ==> MayInsert(w, t, request.id)
    ensures Frame(w, v, t)
  {
    StoringSection(w, v, t);
    forall id | id in w.st.operations || id in v.st.operations ensures RecordStep(w, v, t, id) {
      ReplayedRecord(w, v, t, request, now, id);
    }
  }

  lemma ReplayStoresWell(w: World, v: World, t: nat, request: S.Record, now: nat)
    requires Inv(w) && Storing(w, v, t) && RetentionHolds(w, now)
    requires S.Replayed(w.st, v.st, w.limits, request, now)
    requires request.id !in w.st.operations ==> MayInsert(w, t, request.id)
    ensures StoresWell(w, v, t)
  {
    ReplayFrame(w, v, t, request, now);
    ReplayRepairs(w, v, t, request, now);
    ReplayDeferred(w, v, t, request, now);
  }

  lemma ReplayRepairs(w: World, v: World, t: nat, request: S.Record, now: nat)
    requires Inv(w) && Storing(w, v, t) && S.Replayed(w.st, v.st, w.limits, request, now)
    ensures StillRepairable(w, v)
  {
    forall id | AwaitsRepair(w, id) && Live(v, id)
      ensures AwaitsRepair(v, id) || (id in v.author && v.author[id] in v.threads)
    {
      S.ReplayKeepsWaiting(w.st, v.st, w.limits, request, now, id);
    }
  }

  lemma ReplayDeferred(w: World, v: World, t: nat, request: S.Record, now: nat)
    requires Inv(w) && Storing(w, v, t) && S.Replayed(w.st, v.st, w.limits, request, now)
    ensures DeferredOnward(v)
  {
    forall id | id in v.st.deferred ensures S.Onward(v.st, id) {
      S.ReplayStaysOnward(w.st, v.st, w.limits, request, now, id);
    }
  }

  lemma FlushStores(w: World, v: World, t: nat, st: S.Store, th: Thread, now: nat)
    requires Ready(w, t) && th == w.threads[t] && th.pc.FirstFlush? && w.author.Keys == w.st.operations.Keys
    requires S.Replayed(w.st, st, w.limits, Wanted(th.request), now) && v == Perform(w, t, WriteLast(st))
    ensures Storing(w, v, t) && t !in v.threads && v.st == st && th.request.operation in w.st.operations
  {
  }

  lemma FlushEnds(w: World, v: World, t: nat, request: S.Record, st: S.Store, now: nat)
    requires Inv(w) && Storing(w, v, t) && t !in v.threads && v.st == st && RetentionHolds(w, now) && !Asleep(w, t)
    requires S.Replayed(w.st, st, w.limits, request, now) && request.id in w.st.operations
    ensures Inv(v)
  {
    ReplayStoresWell(w, v, t, request, now);
    StoringInv(w, v, t);
  }

  /** Where a call that may insert the thread's own record leaves the thread. */
  lemma ReplayInv(w: World, v: World, t: nat, request: S.Record, st: S.Store, th: Thread, now: nat)
    requires Inv(w) && Ready(w, t) && RetentionHolds(w, now) && !Asleep(w, t)
    requires S.Replayed(w.st, st, w.limits, request, now) && request.id == w.threads[t].request.operation
    requires w.threads[t].role.Requester? && Engaged(w.threads[t]) && !w.threads[t].leased
    requires Continues(w.threads[t], th) && !th.pc.Working? && v == Perform(w, t, Write(st, th))
    requires ThreadOk(v, t)
    ensures Inv(v)
  {
    WriteStores(w, v, t, st, th);
    ReplayStoresWell(w, v, t, request, now);
    StoringInv(w, v, t);
  }

  lemma SecondFlushOk(w: World, v: World, t: nat, st: S.Store, th: Thread, now: nat)
    requires Ready(w, t) && th == w.threads[t] && th.pc.SecondFlush? && w.author.Keys == w.st.operations.Keys
    requires S.Replayed(w.st, st, w.limits, Wanted(th.request), now)
    requires v == Perform(w, t, Write(st, th.(pc := Completing)))
    ensures ThreadOk(v, t)
  {
    SecondFlushHolds(w, v, t, st, th, now);
    assert Listed(v, t, v.threads[t]);
  }

  lemma SecondFlushHolds(w: World, v: World, t: nat, st: S.Store, th: Thread, now: nat)
    requires Ready(w, t) && th == w.threads[t] && th.pc.SecondFlush? && w.author.Keys == w.st.operations.Keys
    requires S.Replayed(w.st, st, w.limits, Wanted(th.request), now)
    requires v == Perform(w, t, Write(st, th.(pc := Completing)))
    ensures t in v.threads && Shape(v.threads[t]) && Holds(v, t) && Relies(v, t) && Authorship(v, t)
  {
  }

  lemma TombstoneOk(w: World, v: World, t: nat, st: S.Store, th: Thread, now: nat, pc: PC)
    requires Ready(w, t) && th == w.threads[t] && th.pc.Tombstone? && w.author.Keys == w.st.operations.Keys
    requires S.Replayed(w.st, st, w.limits, Cancellation(th.request), now)
    requires v == Perform(w, t, Write(st, th.(pc := pc))) && (pc == Completing || pc == TombstoneLookup)
    ensures ThreadOk(v, t)
  {
    TombstoneIsTerminal(w, v, t, st, th, now);
    TombstoneAuthorship(w, v, t, st, th, now);
    TombstoneHolds(w, v, t, st, th, pc);
  }

  lemma TombstoneHolds(w: World, v: World, t: nat, st: S.Store, th: Thread, pc: PC)
    requires Ready(w, t) && th == w.threads[t] && th.pc.Tombstone?
    requires v == Perform(w, t, Write(st, th.(pc := pc))) && (pc == Completing || pc == TombstoneLookup)
    ensures t in v.threads && v.threads[t] == th.(pc := pc) && Shape(v.threads[t]) && Holds(v, t)
    ensures Listed(v, t, v.threads[t])
  {
  }

  lemma TombstoneIsTerminal(w: World, v: World, t: nat, st: S.Store, th: Thread, now: nat)
    requires Ready(w, t) && th == w.threads[t] && th.pc.Tombstone? && w.author.Keys == w.st.operations.Keys
    requires th.request.operation in st.operations ==>
        st.operations[th.request.operation] == S.Stamped(Cancellation(th.request), now)
    requires v.st == st && v.author == Authors(w, t, st)
    ensures var id := th.request.operation; id in v.st.operations ==> Wrote(v, t, id) && !Live(v, id)
  {
  }

  lemma TombstoneAuthorship(w: World, v: World, t: nat, st: S.Store, th: Thread, now: nat)
    requires Ready(w, t) && th == w.threads[t] && th.pc.Tombstone? && w.author.Keys == w.st.operations.Keys
    requires S.Replayed(w.st, st, w.limits, Cancellation(th.request), now)
    requires v.author == Authors(w, t, st)
    ensures forall id :: id in v.author && v.author[id] == t ==> id == th.request.operation
  {
  }

  lemma ReservationOk(w: World, v: World, t: nat, st: S.Store, th: Thread, now: nat, pc: PC)
    requires Ready(w, t) && th == w.threads[t] && th.pc.ReserveRecord? && w.author.Keys == w.st.operations.Keys
    requires S.Replayed(w.st, st, w.limits, Wanted(th.request), now)
    requires v == Perform(w, t, Write(st, th.(pc := pc)))
    requires (pc == ReserveJob && th.request.operation in st.operations) || pc == ReserveLookup
    ensures ThreadOk(v, t)
  {
  }

  // A transition of the thread's own record, or of the journal's by a repair.

  /** What entitles the thread to the transition it is making. */
  ghost predicate Entitled(w: World, t: nat, k: string, goal: S.Goal) {
    && !goal.status.Pending?
    && (Live(w, k) ==>
          && MayMove(w, t, k)
          && (goal.status.Running? ==> w.st.operations[k].status.Pending?))
  }

  lemma TransitRecord(w: World, v: World, t: nat, k: string, goal: S.Goal, now: nat, id: string)
    requires RecordsOk(w) && Storing(w, v, t) && RetentionHolds(w, now) && Entitled(w, t, k, goal)
    requires S.Transitioned(w.st, v.st, w.limits, k, goal, now) && (id in w.st.operations || id in v.st.operations)
    ensures RecordStep(w, v, t, id)
  {
    assert S.Evolves(w.st, v.st, w.limits, id, now);
  }

  lemma TransitFrame(w: World, v: World, t: nat, k: string, goal: S.Goal, now: nat)
    requires RecordsOk(w) && Storing(w, v, t) && RetentionHolds(w, now) && Entitled(w, t, k, goal)
    requires S.Transitioned(w.st, v.st, w.limits, k, goal, now)
    ensures Frame(w, v, t)
  {
    StoringSection(w, v, t);
    forall id | id in w.st.operations || id in v.st.operations ensures RecordStep(w, v, t, id) {
      TransitRecord(w, v, t, k, goal, now, id);
    }
  }

  lemma TransitRepairs(w: World, v: World, t: nat, k: string, goal: S.Goal, now: nat)
    requires Inv(w) && Storing(w, v, t) && t in v.threads && Entitled(w, t, k, goal)
    requires S.Transitioned(w.st, v.st, w.limits, k, goal, now)
    ensures StillRepairable(w, v)
  {
    forall id | AwaitsRepair(w, id) && Live(v, id)
      ensures AwaitsRepair(v, id) || (id in v.author && v.author[id] in v.threads)
    {
      S.TransitionKeepsWaiting(w.st, v.st, w.limits, k, goal, now, id);
    }
  }

  lemma TransitDeferred(w: World, v: World, t: nat, k: string, goal: S.Goal, now: nat)
    requires Inv(w) && Storing(w, v, t) && Entitled(w, t, k, goal)
    requires S.Transitioned(w.st, v.st, w.limits, k, goal, now)
    ensures DeferredOnward(v)
  {
    forall id | id in v.st.deferred ensures S.Onward(v.st, id) {
      S.TransitionStaysOnward(w.st, v.st, w.limits, k, goal, now, id);
    }
  }

  lemma TransitStoresWell(w: World, v: World, t: nat, k: string, goal: S.Goal, now: nat)
    requires Inv(w) && Storing(w, v, t) && t in v.threads && RetentionHolds(w, now) && Entitled(w, t, k, goal)
    requires S.Transitioned(w.st, v.st, w.limits, k, goal, now)
    ensures StoresWell(w, v, t)
  {
    TransitFrame(w, v, t, k, goal, now);
    TransitRepairs(w, v, t, k, goal, now);
    TransitDeferred(w, v, t, k, goal, now);
  }

  lemma TransitionsAreEntitled(w: World, t: nat, th: Thread, goal: S.Goal, after: After)
    requires w.author.Keys == w.st.operations.Keys && Ready(w, t) && th == w.threads[t]
    requires th.pc == Transitioning(goal, after) && th.request.operation != ""
    ensures Entitled(w, t, th.request.operation, goal)
  {
  }

  lemma WriteStores(w: World, v: World, t: nat, st: S.Store, th: Thread)
    requires Ready(w, t) && w.author.Keys == w.st.operations.Keys
    requires Continues(w.threads[t], th) && v == Perform(w, t, Write(st, th))
    ensures Storing(w, v, t) && v.st == st && t in v.threads
  {
  }

  lemma TransitInv(w: World, v: World, t: nat, st: S.Store, th: Thread, goal: S.Goal, now: nat)
    requires Inv(w) && Ready(w, t) && RetentionHolds(w, now) && !Asleep(w, t)
    requires Entitled(w, t, th.request.operation, goal)
    requires S.Transitioned(w.st, st, w.limits, th.request.operation, goal, now)
    requires Continues(w.threads[t], th) && v == Perform(w, t, Write(st, th))
    requires ThreadOk(v, t)
    ensures Inv(v)
  {
    WriteStores(w, v, t, st, th);
    TransitStoresWell(w, v, t, th.request.operation, goal, now);
    StoringInv(w, v, t);
  }

  /** The thread's view after its transition: same journal, same author. */
  ghost predicate Looking(w: World, v: World, t: nat, th: Thread, next: Thread) {
    && t in w.threads && w.threads[t] == th && t in v.threads && v.threads[t] == next
    && v.journal == w.journal && v.raced == w.raced && v.c == w.c && v.leaked == w.leaked
    && (var k := th.request.operation;
        k in v.st.operations ==> k in w.st.operations && k in w.author && k in v.author && v.author[k] == w.author[k])
  }

  lemma ContinuingWrite(w: World, v: World, t: nat, st: S.Store, th: Thread)
    requires Ready(w, t) && Continues(w.threads[t], th) && Shape(th) && w.author.Keys == w.st.operations.Keys
    requires st.operations.Keys <= w.st.operations.Keys && v == Perform(w, t, Write(st, th))
    requires Relies(v, t) && Listed(v, t, th)
    ensures ThreadOk(v, t)
  {
  }

  lemma MovedStart(w: World, v: World, t: nat, th: Thread, goal: S.Goal)
    requires Looking(w, v, t, th, th.(pc := Working)) && goal == RUNNING_GOAL
    requires Transits(w, t, goal, AfterStart) && S.Shows(v.st.operations, th.request.operation, goal)
    requires th.request.operation !in v.st.deferred
    requires th.request.operation != ""
    ensures Relies(v, t)
  {
  }

  lemma MovedReject(w: World, v: World, t: nat, th: Thread, goal: S.Goal, after: After)
    requires Looking(w, v, t, th, Resume(th, goal, after, true)) && AfterFits(th, goal, after)
    requires after.AfterCancel? || after.AfterReject?
    requires Transits(w, t, goal, after) && S.Shows(v.st.operations, th.request.operation, goal)
    requires th.request.operation != ""
    ensures Relies(v, t)
  {
  }

  lemma MovedWork(w: World, v: World, t: nat, th: Thread, goal: S.Goal)
    requires Looking(w, v, t, th, Resume(th, goal, AfterWork, true)) && AfterFits(th, goal, AfterWork)
    requires Transits(w, t, goal, AfterWork) && S.Shows(v.st.operations, th.request.operation, goal)
    requires th.request.operation != ""
    ensures Relies(v, t)
  {
  }

  lemma MovedRepair(w: World, v: World, t: nat, th: Thread, goal: S.Goal, after: After)
    requires Looking(w, v, t, th, Resume(th, goal, after, true)) && AfterFits(th, goal, after)
    requires after.AfterRepair? || after.AfterRepairFailure?
    requires Transits(w, t, goal, after) && S.Shows(v.st.operations, th.request.operation, goal)
    requires th.request.operation != ""
    ensures Relies(v, t)
  {
  }

  lemma UnmovedStart(w: World, v: World, t: nat, th: Thread, goal: S.Goal)
    requires Looking(w, v, t, th, th.(pc := Confirming(goal, AfterStart))) && goal == RUNNING_GOAL
    requires Transits(w, t, goal, AfterStart) && th.request.operation != ""
    requires th.request.operation in v.st.operations && S.Moves(w.st, v.st, th.request.operation, goal)
    ensures Relies(v, t)
  {
  }

  lemma UnmovedWork(w: World, v: World, t: nat, th: Thread, goal: S.Goal)
    requires Looking(w, v, t, th, th.(pc := Confirming(goal, AfterWork)))
    requires Transits(w, t, goal, AfterWork) && th.request.operation != ""
    requires th.request.operation in v.st.operations && S.Moves(w.st, v.st, th.request.operation, goal)
    ensures Relies(v, t)
  {
  }

  lemma UnmovedRest(w: World, v: World, t: nat, th: Thread, goal: S.Goal, after: After)
    requires Looking(w, v, t, th, th.(pc := Confirming(goal, after)))
    requires Transits(w, t, goal, after) && th.request.operation != "" && !after.AfterStart? && !after.AfterWork?
    ensures Relies(v, t)
  {
  }

  lemma MovedRelies(w: World, v: World, t: nat, th: Thread, goal: S.Goal, after: After)
    requires Looking(w, v, t, th, Resume(th, goal, after, true)) && AfterFits(th, goal, after)
    requires Transits(w, t, goal, after) && th.request.operation != ""
    requires S.Shows(v.st.operations, th.request.operation, goal) && th.request.operation !in v.st.deferred
    ensures Relies(v, t)
  {
    match after
    case AfterStart => MovedStart(w, v, t, th, goal);
    case AfterCancel => MovedReject(w, v, t, th, goal, after);
    case AfterReject => MovedReject(w, v, t, th, goal, after);
    case AfterWork => MovedWork(w, v, t, th, goal);
    case AfterRepair => MovedRepair(w, v, t, th, goal, after);
    case AfterRepairFailure => MovedRepair(w, v, t, th, goal, after);
  }

  lemma UnmovedRelies(w: World, v: World, t: nat, th: Thread, goal: S.Goal, after: After)
    requires Looking(w, v, t, th, th.(pc := Confirming(goal, after))) && AfterFits(th, goal, after)
    requires Transits(w, t, goal, after) && th.request.operation != ""
    requires Live(w, th.request.operation) ==>
      th.request.operation in v.st.operations && S.Moves(w.st, v.st, th.request.operation, goal)
    ensures Relies(v, t)
  {
    match after
    case AfterStart => UnmovedStart(w, v, t, th, goal);
    case AfterWork => UnmovedWork(w, v, t, th, goal);
    case _ => UnmovedRest(w, v, t, th, goal, after);
  }

  lemma TransitionKeeps(w: World, t: nat, th: Thread, goal: S.Goal, after: After, ch: Choice)
    requires Inv(w) && Ready(w, t) && th == w.threads[t] && th.pc == Transitioning(goal, after)
    requires RetentionHolds(w, ch.now) && !Asleep(w, t)
    ensures Inv(Perform(w, t, Transition(w, th, goal, after, ch)))
  {
    var id := th.request.operation;
    if id == "" {
      LegacyResumeArrives(w, t, th, goal, after);
      StayInv(w, t, Resume(th, goal, after, true));
    } else {
      var (st, r) := S.Transition(w.st, w.limits, id, goal, ch.now, ch.outcome);
      S.TransitionTransits(w.st, w.limits, id, goal, ch.now, ch.outcome);
      TransitionsAreEntitled(w, t, th, goal, after);
      WrittenTransition(w, t, th, goal, after, st, ch.now, r.Moved?);
    }
  }

  lemma ResumeContinues(th: Thread, goal: S.Goal, after: After, next: Thread)
    requires Shape(th) && th.pc == Transitioning(goal, after) && th.request.operation != ""
    requires next == Resume(th, goal, after, true) || next == th.(pc := Confirming(goal, after))
    ensures Continues(th, next) && Shape(next) && (PastStart(th) || next.pc.Working? ==> PastStart(next))
    ensures !Replied(th)
  {
  }

  lemma Looks(w: World, v: World, t: nat, th: Thread, st: S.Store, next: Thread)
    requires t in w.threads && w.threads[t] == th && w.author.Keys == w.st.operations.Keys
    requires st.operations.Keys <= w.st.operations.Keys && v == Perform(w, t, Write(st, next))
    ensures Looking(w, v, t, th, next)
  {
  }

  lemma MovedThread(w: World, v: World, t: nat, th: Thread, goal: S.Goal, after: After, st: S.Store, next: Thread)
    requires Ready(w, t) && th == w.threads[t] && th.pc == Transitioning(goal, after) && th.request.operation != ""
    requires w.author.Keys == w.st.operations.Keys && st.operations.Keys <= w.st.operations.Keys
    requires S.Shows(st.operations, th.request.operation, goal) && th.request.operation !in st.deferred
    requires next == Resume(th, goal, after, true) && v == Perform(w, t, Write(st, next))
    ensures ThreadOk(v, t)
  {
    Looks(w, v, t, th, st, next);
    ResumeContinues(th, goal, after, next);
    MovedRelies(w, v, t, th, goal, after);
    ContinuingWrite(w, v, t, st, next);
  }

  lemma UnmovedThread(w: World, v: World, t: nat, th: Thread, goal: S.Goal, after: After, st: S.Store, next: Thread)
    requires Ready(w, t) && th == w.threads[t] && th.pc == Transitioning(goal, after) && th.request.operation != ""
    requires w.author.Keys == w.st.operations.Keys && st.operations.Keys <= w.st.operations.Keys
    requires Live(w, th.request.operation) ==>
      th.request.operation in st.operations && S.Moves(w.st, st, th.request.operation, goal)
    requires next == th.(pc := Confirming(goal, after)) && v == Perform(w, t, Write(st, next))
    ensures ThreadOk(v, t)
  {
    Looks(w, v, t, th, st, next);
    ResumeContinues(th, goal, after, next);
    UnmovedRelies(w, v, t, th, goal, after);
    ContinuingWrite(w, v, t, st, next);
  }

  lemma WrittenTransition(w: World, t: nat, th: Thread, goal: S.Goal, after: After, st: S.Store, now: nat, moved: bool)
    requires Inv(w) && Ready(w, t) && th == w.threads[t] && th.pc == Transitioning(goal, after)
    requires th.request.operation != ""
    requires RetentionHolds(w, now) && !Asleep(w, t) && Entitled(w, t, th.request.operation, goal)
    requires S.Transitioned(w.st, st, w.limits, th.request.operation, goal, now)
    requires moved ==> S.Shows(st.operations, th.request.operation, goal) && th.request.operation !in st.deferred
    ensures Inv(Perform(w, t,
                        Write(st, if moved then Resume(th, goal, after, true) else th.(pc := Confirming(goal, after)))))
  {
    var next := if moved then Resume(th, goal, after, true) else th.(pc := Confirming(goal, after));
    var v := Perform(w, t, Write(st, next));
    if moved { MovedThread(w, v, t, th, goal, after, st, next); }
    else { UnmovedThread(w, v, t, th, goal, after, st, next); }
    ResumeContinues(th, goal, after, next);
    TransitInv(w, v, t, st, next, goal, now);
  }
}
