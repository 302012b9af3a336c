/** The invariant over whole runs, and what it means. */
module ControlPlaneSafety {
  import opened Lifecycle
  import opened ControlPlane
  import opened ControlPlaneInvariant
  import opened ControlPlaneFrames
  import opened ControlPlaneSteps
  import C = Coordination
  import S = OperationStore

  // --------------------------------------------------------- One step each

  ghost predicate Able(w: World, t: nat, th: Thread, ch: Choice) {
    && Inv(w) && t in w.threads && th == w.threads[t] && ThreadOk(w, t)
    && w.author.Keys == w.st.operations.Keys
    && !Asleep(w, t) && Fresh(w, ch.token) && RetentionHolds(w, ch.now) && 400 <= ch.http <= 599
  }

  lemma PrepareKeeps(w: World, t: nat, th: Thread, ch: Choice, first: bool)
    requires Able(w, t, th, ch) && th.pc == AwaitPrepare(first)
    ensures Inv(Perform(w, t, PrepareTurn(w, th, first)))
  {
    var step := PrepareTurn(w, th, first);
    match step
    case Wait(c, pc) =>
      WaitingDozes(w, t, th, c, pc);
      DozingInv(w, Perform(w, t, step), t);
    case Coordinate(c, next) =>
      PreparedAdvances(w, t, th, first, next.request);
      AdvancingInv(w, Perform(w, t, step), t);
    case Depart(c) =>
      TurnedAwayDeparts(w, t, c);
      DepartingInv(w, Perform(w, t, step), t);
  }

  lemma PromoteKeeps(w: World, t: nat, th: Thread, ch: Choice, first: bool)
    requires Able(w, t, th, ch) && th.pc == AwaitPromote(first)
    ensures Inv(Perform(w, t, PromoteTurn(w, th, first, ch.ok)))
  {
    var c := Observed(w, th, first);
    match C.PromoteTurn(c, th.request, th.job, ch.ok).1
    case Waiting =>
      WaitingDozes(w, t, th, c, AwaitPromote(false));
      DozingInv(w, Perform(w, t, Wait(c, AwaitPromote(false))), t);
    case Granted => GrantKeeps(w, t, th, first);
    case NotPending => RejectKeeps(w, t, th, first, 409);
    case Refused => RejectKeeps(w, t, th, first, 503);
  }

  lemma GrantKeeps(w: World, t: nat, th: Thread, first: bool)
    requires Inv(w) && Ready(w, t) && th == w.threads[t] && th.pc.AwaitPromote? && !Asleep(w, t)
    requires w.c.active.None? && C.Promotable(Observed(w, th, first), th.request)
    ensures Inv(Perform(w, t,
                        Coordinate(C.Promoted(Observed(w, th, first), th.request, th.job),
                                   th.(pc := Admitted, leased := true))))
  {
    PromotedAdvances(w, t, th, first);
    AdvancingInv(w,
                 Perform(w, t,
                         Coordinate(C.Promoted(Observed(w, th, first), th.request, th.job),
                                    th.(pc := Admitted, leased := true))), t);
  }

  lemma RejectKeeps(w: World, t: nat, th: Thread, first: bool, http: nat)
    requires Inv(w) && Ready(w, t) && th == w.threads[t] && th.pc.AwaitPromote? && !Asleep(w, t) && http >= 400
    ensures Inv(Perform(w, t, Coordinate(Observed(w, th, first), Reject(th, http))))
  {
    RejectedAdvances(w, t, th, first, http);
    AdvancingInv(w, Perform(w, t, Coordinate(Observed(w, th, first), Reject(th, http))), t);
  }

  lemma BeginKeeps(w: World, t: nat, th: Thread, ch: Choice)
    requires Able(w, t, th, ch) && th.pc.AwaitBegin?
    ensures Inv(Perform(w, t, BeginTurn(w, t, th)))
  {
    var step := BeginTurn(w, t, th);
    match step
    case Wait(c, pc) =>
      WaitingDozes(w, t, th, c, pc);
      DozingInv(w, Perform(w, t, step), t);
    case Coordinate(c, next) =>
      BegunAdvances(w, t, th, c);
      AdvancingInv(w, Perform(w, t, step), t);
    case Depart(c) =>
      TurnedAwayDeparts(w, t, c);
      DepartingInv(w, Perform(w, t, step), t);
  }

  lemma BeginRecoveryKeeps(w: World, t: nat, th: Thread, ch: Choice)
    requires Able(w, t, th, ch) && th.pc.AwaitRecovery?
    ensures Inv(Perform(w, t, BeginRecoveryTurn(w, t, th)))
  {
    var step := BeginRecoveryTurn(w, t, th);
    match step
    case Wait(c, pc) =>
      WaitingDozes(w, t, th, c, pc);
      DozingInv(w, Perform(w, t, step), t);
    case Coordinate(c, next) =>
      RecoveryAdvances(w, t, th, c);
      AdvancingInv(w, Perform(w, t, step), t);
    case Depart(c) =>
      TurnedAwayDeparts(w, t, c);
      DepartingInv(w, Perform(w, t, step), t);
  }

  lemma DrainKeeps(w: World, t: nat, th: Thread, ch: Choice)
    requires Able(w, t, th, ch) && th.pc.AwaitDrain?
    ensures Inv(Perform(w, t, DrainTurn(w, ch)))
  {
    var step := DrainTurn(w, ch);
    match step
    case Wait(c, pc) =>
      WaitingDozes(w, t, th, c, pc);
      DozingInv(w, Perform(w, t, step), t);
    case Depart(c) =>
      DrainDeparts(w, t, ch);
      DepartingInv(w, Perform(w, t, step), t);
  }

  lemma FirstLookInv(w: World, t: nat, th: Thread, ch: Choice)
    requires Able(w, t, th, ch) && th.pc.FirstLookup?
    ensures Inv(Perform(w, t, FirstLook(w, th)))
  {
    FirstLookKeeps(w, t, th);
    if FirstLook(w, th).Leave? { FirstLeaveInv(w, t, th); } else { StayInv(w, t, FirstLook(w, th).thread); }
  }

  lemma FirstLeaveInv(w: World, t: nat, th: Thread)
    requires Inv(w) && Ready(w, t) && th == w.threads[t] && th.pc.FirstLookup? && !Asleep(w, t)
    ensures Inv(Perform(w, t, Leave))
  {
    LeavingIsDeparting(w, t);
    TurnedAwayInv(w, t);
  }

  lemma TurnedAwayInv(w: World, t: nat)
    requires Inv(w) && Ready(w, t) && w.threads[t].pc.FirstLookup? && !Asleep(w, t)
    ensures Inv(Perform(w, t, Depart(w.c)))
  {
    TurnedAwayDeparts(w, t, w.c);
    DepartingInv(w, Perform(w, t, Depart(w.c)), t);
  }

  lemma LeavingIsDeparting(w: World, t: nat)
    requires t in w.threads && w.author.Keys >= w.st.operations.Keys
    ensures Perform(w, t, Depart(w.c)) == Perform(w, t, Leave)
  {
  }

  lemma FirstFlushKeeps(w: World, t: nat, th: Thread, ch: Choice)
    requires Able(w, t, th, ch) && th.pc.FirstFlush?
    ensures Inv(Perform(w, t, WriteLast(Flushed(w, th, ch))))
  {
    S.ReserveReplays(w.st, w.limits, Wanted(th.request), ch.now, ch.outcome);
    FirstFlushInv(w, Perform(w, t, WriteLast(Flushed(w, th, ch))), t, th, Flushed(w, th, ch), ch.now);
  }

  lemma FirstFlushInv(w: World, v: World, t: nat, th: Thread, st: S.Store, now: nat)
    requires Inv(w) && Ready(w, t) && th == w.threads[t] && th.pc.FirstFlush? && RetentionHolds(w, now) && !Asleep(w, t)
    requires w.author.Keys == w.st.operations.Keys && S.Replayed(w.st, st, w.limits, Wanted(th.request), now)
    requires v == Perform(w, t, WriteLast(st))
    ensures Inv(v)
  {
    FlushStores(w, v, t, st, th, now);
    FlushEnds(w, v, t, Wanted(th.request), st, now);
  }

  lemma SecondFlushKeeps(w: World, t: nat, th: Thread, ch: Choice)
    requires Able(w, t, th, ch) && th.pc.SecondFlush?
    ensures Inv(Perform(w, t, Write(Flushed(w, th, ch), th.(pc := Completing))))
  {
    var st := Flushed(w, th, ch);
    S.ReserveReplays(w.st, w.limits, Wanted(th.request), ch.now, ch.outcome);
    SecondFlushInv(w, t, th, st, ch.now);
  }

  lemma SecondFlushInv(w: World, t: nat, th: Thread, st: S.Store, now: nat)
    requires Inv(w) && Ready(w, t) && th == w.threads[t] && th.pc.SecondFlush? && RetentionHolds(w, now)
    requires !Asleep(w, t)
    requires S.Replayed(w.st, st, w.limits, Wanted(th.request), now)
    ensures Inv(Perform(w, t, Write(st, th.(pc := Completing))))
  {
    var v := Perform(w, t, Write(st, th.(pc := Completing)));
    assert Shape(th) && Holds(w, t);
    SecondFlushOk(w, v, t, st, th, now);
    ReplayInv(w, v, t, Wanted(th.request), st, th.(pc := Completing), now);
  }

  lemma TombstoneKeeps(w: World, t: nat, th: Thread, ch: Choice)
    requires Able(w, t, th, ch) && th.pc.Tombstone?
    ensures Inv(Perform(w, t, WriteTombstone(w, th, ch)))
  {
    var (st, r) := S.Reserve(w.st, w.limits, Cancellation(th.request), ch.now, ch.outcome);
    S.ReserveReplays(w.st, w.limits, Cancellation(th.request), ch.now, ch.outcome);
    TombstoneInv(w, t, th, st, ch.now, if r.Reserved? then Completing else TombstoneLookup);
  }

  lemma TombstoneInv(w: World, t: nat, th: Thread, st: S.Store, now: nat, pc: PC)
    requires Inv(w) && Ready(w, t) && th == w.threads[t] && th.pc.Tombstone? && RetentionHolds(w, now) && !Asleep(w, t)
    requires w.author.Keys == w.st.operations.Keys && (pc == Completing || pc == TombstoneLookup)
    requires S.Replayed(w.st, st, w.limits, Cancellation(th.request), now)
    ensures Inv(Perform(w, t, Write(st, th.(pc := pc))))
  {
    var v := Perform(w, t, Write(st, th.(pc := pc)));
    TombstoneOk(w, v, t, st, th, now, pc);
    ReplayInv(w, v, t, Cancellation(th.request), st, th.(pc := pc), now);
  }

  lemma ReservationKeeps(w: World, t: nat, th: Thread, ch: Choice)
    requires Able(w, t, th, ch) && th.pc.ReserveRecord?
    ensures Inv(Perform(w, t, WriteReservation(w, th, ch)))
  {
    var pc := ReservationGoes(w, t, th, ch);
    S.ReserveReplays(w.st, w.limits, Wanted(th.request), ch.now, ch.outcome);
    ReservationInv(w, t, th, Flushed(w, th, ch), ch.now, pc);
  }

  lemma ReservationGoes(w: World, t: nat, th: Thread, ch: Choice) returns (pc: PC)
    requires Ready(w, t) && th == w.threads[t] && th.pc.ReserveRecord?
    ensures WriteReservation(w, th, ch) == Write(Flushed(w, th, ch), th.(pc := pc))
    ensures (pc == ReserveJob && th.request.operation in Flushed(w, th, ch).operations) || pc == ReserveLookup
  {
    S.FreshReserveAnswers(w.st, w.limits, Wanted(th.request), ch.now, ch.outcome);
    pc := WriteReservation(w, th, ch).thread.pc;
  }

  lemma ReservationInv(w: World, t: nat, th: Thread, st: S.Store, now: nat, pc: PC)
    requires Inv(w) && Ready(w, t) && th == w.threads[t] && th.pc.ReserveRecord? && RetentionHolds(w, now)
    requires !Asleep(w, t)
    requires S.Replayed(w.st, st, w.limits, Wanted(th.request), now)
    requires (pc == ReserveJob && th.request.operation in st.operations) || pc == ReserveLookup
    ensures Inv(Perform(w, t, Write(st, th.(pc := pc))))
  {
    var v := Perform(w, t, Write(st, th.(pc := pc)));
    ReservationOk(w, v, t, st, th, now, pc);
    ReplayInv(w, v, t, Wanted(th.request), st, th.(pc := pc), now);
  }

  lemma WorkKeeps(w: World, t: nat, th: Thread, ch: Choice)
    requires Able(w, t, th, ch) && th.pc.Working?
    ensures Inv(Perform(w, t, Work(w, t, th, ch)))
  {
    var step := Work(w, t, th, ch);
    if step.Stay? {
      WorkFailureArrives(w, t, th);
      StayInv(w, t, step.thread);
    } else {
      WritingReplaces(w, t, th, step.thread.pc);
      ReplacingInv(w, Perform(w, t, step), t);
    }
  }

  lemma RemoveKeeps(w: World, t: nat, th: Thread, ch: Choice, purpose: Purpose)
    requires Able(w, t, th, ch) && th.pc == Clearing(purpose)
    ensures Inv(Perform(w, t, RemoveJournal(th, purpose, ch)))
  {
    match ch.outcome
    case NotCommitted =>
      KeptJournalArrives(w, t, th, purpose);
      StayInv(w, t, th.(pc := AfterClearing(purpose, false)));
    case Persisted => RemovedInv(w, t, th, purpose, ClearingPending(purpose));
    case CommittedUnsynced => RemovedInv(w, t, th, purpose, AfterClearing(purpose, false));
  }

  lemma RemovedInv(w: World, t: nat, th: Thread, purpose: Purpose, pc: PC)
    requires Inv(w) && Ready(w, t) && th == w.threads[t] && th.pc == Clearing(purpose) && !Asleep(w, t)
    requires pc == ClearingPending(purpose) || pc == AfterClearing(purpose, false)
    ensures Inv(Perform(w, t, Replace(None, th.(pc := pc))))
  {
    RemovingReplaces(w, t, th, purpose, pc);
    ReplacingInv(w, Perform(w, t, Replace(None, th.(pc := pc))), t);
  }

  lemma FinishKeeps(w: World, t: nat, th: Thread, ch: Choice)
    requires Able(w, t, th, ch) && th.pc.Finishing?
    ensures Inv(Perform(w, t, Finish(w, th)))
  {
    if th.confirmed {
      FinishArrives(w, t, th);
      StayInv(w, t, th.(pc := Completing));
    } else {
      SettlementFlags(w, t, th, Completing);
      FlaggingInv(w, Perform(w, t, Finish(w, th)), t);
    }
  }

  lemma CompleteKeeps(w: World, t: nat, th: Thread, ch: Choice)
    requires Able(w, t, th, ch) && th.pc.Completing?
    ensures Inv(Perform(w, t, Complete(w, t, th)))
  {
    if th.leased {
      CompletingLeased(w, t, th);
      StayInv(w, t, th.(pc := Releasing));
    } else {
      CompletingDeparts(w, t);
      DepartingInv(w, Perform(w, t, Complete(w, t, th)), t);
    }
  }

  lemma MarkJournalKeeps(w: World, t: nat, th: Thread, ch: Choice)
    requires Able(w, t, th, ch) && th.pc.MarkingJournal?
    ensures Inv(Perform(w, t, Coordinate(C.MarkJournalPending(w.c), th.(pc := Journaled))))
  {
    MarkingFlags(w, t, th);
    FlaggingInv(w, Perform(w, t, Coordinate(C.MarkJournalPending(w.c), th.(pc := Journaled))), t);
  }

  lemma MarkWorkKeeps(w: World, t: nat, th: Thread, ch: Choice)
    requires Able(w, t, th, ch) && th.pc.MarkingWork?
    ensures Inv(Perform(w, t, Coordinate(C.MarkSettlementPending(w.c), th.(pc := Releasing))))
  {
    SettlementFlags(w, t, th, Releasing);
    FlaggingInv(w, Perform(w, t, Coordinate(C.MarkSettlementPending(w.c), th.(pc := Releasing))), t);
  }

  lemma ClearPendingKeeps(w: World, t: nat, th: Thread, ch: Choice, purpose: Purpose)
    requires Able(w, t, th, ch) && th.pc == ClearingPending(purpose)
    ensures Inv(Perform(w, t,
                        Coordinate(C.ClearJournalPending(w.c, w.marker), th.(pc := AfterClearing(purpose, true)))))
  {
    ClearingPendingFlags(w, t, th, purpose);
    FlaggingInv(w,
                Perform(w, t,
                        Coordinate(C.ClearJournalPending(w.c, w.marker), th.(pc := AfterClearing(purpose, true)))), t);
  }

  lemma ReleaseKeeps(w: World, t: nat, th: Thread, ch: Choice)
    requires Able(w, t, th, ch) && th.pc.Releasing?
    ensures Inv(Perform(w, t, Depart(C.Done(w.c, t, JournalPresent(w)))))
  {
    ReleasingDeparts(w, t);
    DepartingInv(w, Perform(w, t, Depart(C.Done(w.c, t, JournalPresent(w)))), t);
  }

  lemma ReadKeeps(w: World, t: nat, th: Thread, ch: Choice)
    requires Able(w, t, th, ch) && th.pc.ReadingJournal?
    ensures Inv(Perform(w, t, Stay(ReadJournal(w, th, ch))))
  {
    if w.journal.None? || !ch.ok {
      ReadFailureArrives(w, t, th);
      StayInv(w, t, th.(pc := Releasing));
    } else {
      ReadJournalKeeps(w, Perform(w, t, Stay(ReadJournal(w, th, ch))), t, th);
    }
  }

  lemma AdmissionKeeps(w: World, t: nat, th: Thread, ch: Choice)
    requires Able(w, t, th, ch) && Admitting(th.pc)
    ensures Inv(Perform(w, t, Admission(w, th, ch)))
  {
    match th.pc
    case FirstLookup => FirstLookInv(w, t, th, ch);
    case FirstFlush => FirstFlushKeeps(w, t, th, ch);
    case ReadFiles => LookArrives(w, t, th); StayInv(w, t, Look(w, th, AwaitPrepare(true)));
    case AwaitPrepare(first) => PrepareKeeps(w, t, th, ch, first);
    case SecondLookup => SecondLookArrives(w, t, th); StayInv(w, t, th.(pc := SecondLook(w, th)));
    case SecondFlush => SecondFlushKeeps(w, t, th, ch);
    case Tombstone => TombstoneKeeps(w, t, th, ch);
    case TombstoneLookup =>
      TombstoneArrives(w, t, th);
      StayInv(w, t, th.(pc := Completing, confirmed := TombstoneShows(w, th.request)));
    case ReserveRecord => ReservationKeeps(w, t, th, ch);
    case ReserveLookup => ReservationArrives(w, t, th); StayInv(w, t, th.(pc := ReservationLook(w, th)));
    case ReserveJob => JobArrives(w, t, th, ch); StayInv(w, t, TakeJob(th, ch));
  }

  lemma ServiceKeeps(w: World, t: nat, th: Thread, ch: Choice)
    requires Able(w, t, th, ch) && Serving(th.pc)
    ensures Inv(Perform(w, t, Service(w, t, th, ch)))
  {
    match th.pc
    case ReadFilesAgain =>
      LookArrives(w, t, th);
      PreflightFailureArrives(w, t, th);
      StayInv(w, t, if ch.ok then Look(w, th, AwaitPromote(true)) else Reject(th, 503));
    case AwaitPromote(first) => PromoteKeeps(w, t, th, ch, first);
    case Admitted => StartArrives(w, t, th, ch); StayInv(w, t, StartWorker(th, ch));
    case Working => WorkKeeps(w, t, th, ch);
    case MarkingJournal => MarkJournalKeeps(w, t, th, ch);
    case Journaled => FinishWorkArrives(w, t, th, ch); StayInv(w, t, th.(pc := FinishWork(w, t, th, ch)));
    case Judging =>
      JudgingArrives(w, t, th);
      StayInv(w, t, th.(pc := Transitioning(FailureGoal(w, t, th), AfterWork)));
  }

  lemma ExitKeeps(w: World, t: nat, th: Thread, ch: Choice)
    requires Able(w, t, th, ch) && Exiting(th.pc)
    ensures Inv(Perform(w, t, Exit(w, t, th, ch)))
  {
    match th.pc
    case Clearing(purpose) => RemoveKeeps(w, t, th, ch, purpose);
    case ClearingPending(purpose) => ClearPendingKeeps(w, t, th, ch, purpose);
    case MarkingWork => MarkWorkKeeps(w, t, th, ch);
    case Releasing => ReleaseKeeps(w, t, th, ch);
    case Transitioning(goal, after) => TransitionKeeps(w, t, th, goal, after, ch);
    case Confirming(goal, after) =>
      ResumeArrives(w, t, th, goal, after);
      StayInv(w, t, Resume(th, goal, after, S.Shows(w.st.operations, th.request.operation, goal)));
    case Settling => SettleArrives(w, t, th); StayInv(w, t, Settle(w, t, th));
    case Finishing => FinishKeeps(w, t, th, ch);
    case Completing => CompleteKeeps(w, t, th, ch);
  }

  lemma ErrandKeeps(w: World, t: nat, th: Thread, ch: Choice)
    requires Able(w, t, th, ch) && !Admitting(th.pc) && !Serving(th.pc) && !Exiting(th.pc)
    ensures Inv(Perform(w, t, Errand(w, t, th, ch)))
  {
    match th.pc
    case AwaitBegin => BeginKeeps(w, t, th, ch);
    case AwaitRecovery => BeginRecoveryKeeps(w, t, th, ch);
    case ReadingJournal => ReadKeeps(w, t, th, ch);
    case CheckingLink => LinkArrives(w, t, th, ch); StayInv(w, t, th.(pc := CheckLink(w, th, ch)));
    case Repairing => VerdictArrives(w, t, th, ch); StayInv(w, t, th.(pc := RepairVerdict(th, ch)));
    case AwaitDrain => DrainKeeps(w, t, th, ch);
  }

  lemma ActKeeps(w: World, t: nat, ch: Choice)
    requires Inv(w) && Enabled(w, Act(t, ch))
    ensures Inv(Perform(w, t, Next(w, t, ch)))
  {
    var th := w.threads[t];
    if Admitting(th.pc) { AdmissionKeeps(w, t, th, ch); }
    else if Serving(th.pc) { ServiceKeeps(w, t, th, ch); }
    else if Exiting(th.pc) { ExitKeeps(w, t, th, ch); }
    else { ErrandKeeps(w, t, th, ch); }
  }

  // ------------------------------------------------------- The other events

  lemma NextIsFree(w: World)
    requires Inv(w)
    ensures w.next !in w.threads
  {
    forall t | t in w.threads ensures t < w.next {
      assert ThreadOk(w, t);
    }
  }

  lemma NewcomerShared(w: World, role: Role, pc: PC, request: C.Preparation)
    requires Inv(w) && request.id == w.next
    ensures var v := Spawn(w, role, pc, request);
      Sound(v) && RecordsOk(v) && DeferredOnward(v) && JournalOk(v) && SleepersOk(v) && Others(w, v, w.next)
  {
    var v := Spawn(w, role, pc, request);
    NextIsFree(w);
    forall u | u in v.sleeping ensures v.sleeping[u] <= v.c.broadcasts && (Asleep(v, u) ==> SleepsFor(v, u)) {
      if Asleep(v, u) { assert Asleep(w, u) && SleepsFor(w, u); }
    }
  }

  lemma NewcomerFrame(w: World, role: Role, pc: PC, request: C.Preparation)
    requires Inv(w)
    ensures var v := Spawn(w, role, pc, request); Frame(w, v, w.next) && StillRepairable(w, v)
  {
    var v := Spawn(w, role, pc, request);
    forall id | id in w.st.operations || id in v.st.operations ensures RecordStep(w, v, w.next, id) {
      assert id in w.author;
    }
  }

  function EntryPoint(role: Role): PC {
    match role
    case Requester => FirstLookup
    case Mutator => AwaitBegin
    case Repairer => AwaitRecovery
    case Maintainer => AwaitDrain
  }

  lemma NewcomerThread(w: World, role: Role, pc: PC, request: C.Preparation)
    requires Inv(w) && request.id == w.next
    requires EntryPoint(role) == pc && (role.Requester? || request == Blank(w.next))
    ensures ThreadOk(Spawn(w, role, pc, request), w.next)
  {
    NextIsFree(w);
  }

  lemma SpawnInv(w: World, role: Role, pc: PC, request: C.Preparation)
    requires Inv(w) && request.id == w.next
    requires EntryPoint(role) == pc && (role.Requester? || request == Blank(w.next))
    ensures Inv(Spawn(w, role, pc, request))
  {
    var v := Spawn(w, role, pc, request);
    NewcomerShared(w, role, pc, request);
    NewcomerFrame(w, role, pc, request);
    NewcomerThread(w, role, pc, request);
    NextIsFree(w);
    OthersOk(w, v, w.next);
    OrphansOk(w, v, w.next);
  }

  /** An event that moves no thread: flags, cancellations, the marker, the lease. */
  ghost predicate Outside(w: World, v: World) {
    && v == w.(c := v.c, marker := v.marker, issued := v.issued)
    && v.c == w.c.(closed := v.c.closed, journalPending := v.c.journalPending, lease := v.c.lease,
                   cancelled := v.c.cancelled, broadcasts := v.c.broadcasts)
    && v.c.broadcasts >= w.c.broadcasts
  }

  lemma OutsideFrame(w: World, v: World)
    requires Inv(w) && Outside(w, v)
    ensures Frame(w, v, w.next) && Others(w, v, w.next) && w.next !in v.threads && StillRepairable(w, v)
  {
    NextIsFree(w);
    forall id | id in w.st.operations || id in v.st.operations ensures RecordStep(w, v, w.next, id) {
      assert id in w.author;
    }
  }

  lemma OutsideSleepers(w: World, v: World)
    requires Inv(w) && Outside(w, v)
    ensures SleepersOk(v) && HoldersExist(v) && RecordsOk(v) && DeferredOnward(v) && JournalOk(v)
  {
    forall u | u in v.sleeping ensures v.sleeping[u] <= v.c.broadcasts && (Asleep(v, u) ==> SleepsFor(v, u)) {
      if Asleep(v, u) { assert Asleep(w, u) && SleepsFor(w, u); }
    }
  }

  lemma OutsideInv(w: World, v: World)
    requires Inv(w) && Outside(w, v) && FailsClosed(v) && TokensOk(v)
    ensures Inv(v)
  {
    OutsideFrame(w, v);
    OutsideSleepers(w, v);
    OthersOk(w, v, w.next);
    OrphansOk(w, v, w.next);
  }

  lemma MaintenanceIsOutside(w: World, e: Event)
    requires Sound(w) && Enabled(w, e)
    requires e.EnterIfIdle? || e.LeaveMaintenance? || e.ReadyProbe? || e.CancelContext?
    ensures Outside(w, Apply(w, e)) && FailsClosed(Apply(w, e)) && TokensOk(Apply(w, e))
  {
  }

  lemma EnterIsOutside(w: World)
    requires Sound(w)
    ensures var v := w.(c := C.EnterMaintenance(w.c), marker := true); Outside(w, v) && FailsClosed(v) && TokensOk(v)
  {
  }

  lemma EnterKeeps(w: World, written: bool)
    requires Inv(w) && Enabled(w, EnterMaintenance(written))
    ensures Inv(Apply(w, EnterMaintenance(written)))
  {
    if w.marker || written {
      EntryClosesInv(w);
      EntryArrives(w, written);
      EntrySpawns(w.(c := C.EnterMaintenance(w.c), marker := true));
    }
  }

  lemma EntryClosesInv(w: World)
    requires Inv(w)
    ensures Inv(w.(c := C.EnterMaintenance(w.c), marker := true))
  {
    EnterIsOutside(w);
    OutsideInv(w, w.(c := C.EnterMaintenance(w.c), marker := true));
  }

  lemma EntrySpawns(v: World)
    requires Inv(v)
    ensures Inv(Spawn(v, Maintainer, AwaitDrain, Blank(v.next)))
  {
    SpawnInv(v, Maintainer, AwaitDrain, Blank(v.next));
  }

  lemma EntryArrives(w: World, written: bool)
    requires Enabled(w, EnterMaintenance(written)) && (w.marker || written)
    ensures var v := w.(c := C.EnterMaintenance(w.c), marker := true);
      Apply(w, EnterMaintenance(written)) == Spawn(v, Maintainer, AwaitDrain, Blank(v.next))
  {
  }

  lemma RestartRecords(w: World, now: nat, outcome: WriteOutcome, later: nat, retry: WriteOutcome)
    requires RecordsOk(w)
    ensures var v := RestartAt(w, now, outcome, later, retry); RecordsOk(v) && v.st.deferred == map[]
  {
    var journalId := if w.journal.Some? then w.journal.value.operation else "";
    S.StartupSettles(w.st.file, w.limits, journalId, now, outcome, later, retry);
  }

  lemma RestartJournal(w: World, e: Event)
    requires Inv(w) && Enabled(w, e) && e.Restart?
    ensures JournalOk(Apply(w, e))
  {
    if w.journal.Some? && w.journal.value.operation != "" {
      var id := w.journal.value.operation;
      S.StartupKeeps(w.st.file, w.limits, id, e.now, e.outcome, e.later, e.retry, id);
    }
  }

  lemma RestartOrphans(w: World, e: Event)
    requires Inv(w) && Enabled(w, e) && e.Restart?
    ensures NoOrphans(Apply(w, e))
  {
    var journalId := if w.journal.Some? then w.journal.value.operation else "";
    S.StartupSettles(w.st.file, w.limits, journalId, e.now, e.outcome, e.later, e.retry);
  }

  lemma RestartKeeps(w: World, e: Event)
    requires Inv(w) && Enabled(w, e) && e.Restart?
    ensures Inv(Apply(w, e))
  {
    RestartRecords(w, e.now, e.outcome, e.later, e.retry);
    RestartJournal(w, e);
    RestartOrphans(w, e);
  }

  lemma StepKeeps(w: World, e: Event)
    requires Inv(w) && Enabled(w, e)
    ensures Inv(Apply(w, e))
  {
    match e
    case Request(request) => SpawnInv(w, Requester, FirstLookup, request);
    case Mutate => SpawnInv(w, Mutator, AwaitBegin, Blank(w.next));
    case Repair => SpawnInv(w, Repairer, AwaitRecovery, Blank(w.next));
    case EnterMaintenance(written) => EnterKeeps(w, written);
    case Act(t, ch) => ActKeeps(w, t, ch);
    case Restart(_, _, _, _) => RestartKeeps(w, e);
    case _ => MaintenanceIsOutside(w, e); OutsideInv(w, Apply(w, e));
  }
}
