/** What every reachable state of the control plane satisfies. */
module ControlPlaneInvariant {
  import opened Lifecycle
  import opened ControlPlane
  import C = Coordination
  import S = OperationStore

  /** Whatever should keep the barrier closed does. */
  predicate FailsClosed(w: World) {
    && (w.marker ==> w.c.closed)
    && (w.c.settlementPending ==> w.c.closed)
    && (w.journal.Some? && w.c.active.None? ==> w.c.closed)
  }

  // ----------------------------------------------------------- One thread

  /** The thread holds the preparation or, once `leased`, the active lease. */
  predicate Engaged(th: Thread) {
    !(th.pc.FirstLookup? || th.pc.FirstFlush? || th.pc.ReadFiles? || th.pc.AwaitPrepare?
      || th.pc.AwaitBegin? || th.pc.AwaitRecovery? || th.pc.AwaitDrain?)
  }

  /** Which roles reach which points, and with which of the two in hand. */
  predicate Shape(th: Thread) {
    match th.pc
    case FirstLookup | FirstFlush | ReadFiles | AwaitPrepare(_) => th.role.Requester? && !th.leased
    case SecondLookup | SecondFlush | Tombstone | TombstoneLookup | ReserveRecord | ReserveLookup
       | ReserveJob | ReadFilesAgain | AwaitPromote(_) => th.role.Requester? && !th.leased
    case Admitted | Judging | MarkingWork => th.role.Requester? && th.leased
    case Working | MarkingJournal | Journaled => (th.role.Requester? || th.role.Mutator?) && th.leased
    case Clearing(p) => PurposeFits(th, p) && th.leased
    case ClearingPending(p) => PurposeFits(th, p) && th.leased
    case Releasing => !th.role.Maintainer? && th.leased
    case Transitioning(goal, after) => AfterFits(th, goal, after)
    case Confirming(goal, after) => AfterFits(th, goal, after) && th.request.operation != ""
    case Settling | Finishing | Completing => th.role.Requester?
    case AwaitBegin => th.role.Mutator? && !th.leased
    case AwaitRecovery => th.role.Repairer? && !th.leased
    case ReadingJournal | CheckingLink | Repairing => th.role.Repairer? && th.leased
    case AwaitDrain => th.role.Maintainer? && !th.leased
  }

  predicate PurposeFits(th: Thread, purpose: Purpose) {
    match purpose
    case ClearSuccess | ClearAbort => th.role.Requester?
    case ClearMutation => th.role.Mutator?
    case ClearRepair => th.role.Repairer?
  }

  predicate AfterFits(th: Thread, goal: S.Goal, after: After) {
    match after
    case AfterStart => th.role.Requester? && th.leased && goal == RUNNING_GOAL
    case AfterCancel => th.role.Requester? && !th.leased && goal == CANCELLED_GOAL && th.http >= 400
    case AfterReject => th.role.Requester? && goal.status.Failed?
    case AfterWork => th.role.Requester? && th.leased && (IsTerminal(goal.status) || goal == RECOVERY_GOAL)
    case AfterRepair => th.role.Repairer? && th.leased && IsTerminal(goal.status)
    case AfterRepairFailure => th.role.Repairer? && th.leased && goal == RECOVERY_GOAL
  }

  /** What the thread holds is what the coordinator says it holds. */
  predicate Holds(w: World, t: nat)
    requires t in w.threads
  {
    var th := w.threads[t];
    && th.request.id == t < w.next
    && (Engaged(th) && !th.leased <==> w.c.preparing == Some(th.request))
    && (th.leased <==> w.c.active == Some(t))
    && (th.role.Requester? ==> (th.leased <==> t in w.c.spent))
    && (!th.role.Requester? ==> th.request.attempt == "")
    && (th.role.Mutator? ==> th.request.operation == "")
  }

  predicate Live(w: World, id: string) {
    id in w.st.operations && !IsTerminal(w.st.operations[id].status)
  }

  predicate Wrote(w: World, t: nat, id: string) {
    id in w.st.operations && id in w.author && w.author[id] == t
  }

  /** The request's record has not been touched since it was written. */
  predicate Untouched(w: World, t: nat, id: string) {
    Wrote(w, t, id) && w.st.operations[id].status.Pending? && id !in w.st.deferred
  }

  predicate UnderWay(w: World, t: nat, id: string) {
    Wrote(w, t, id) && w.st.operations[id].status.Running? && id !in w.st.deferred
  }

  predicate Present(w: World, t: nat, id: string) {
    Wrote(w, t, id) && Live(w, id)
  }

  /** Still unfinished, and a settlement waiting to be written leaves it so. */
  predicate Steady(w: World, t: nat, id: string) {
    Present(w, t, id) && (id in w.st.deferred ==> !IsTerminal(w.st.deferred[id].status))
  }

  predicate NoOneElses(w: World, t: nat, id: string) {
    id in w.st.operations ==> Wrote(w, t, id)
  }

  /** The thread leaves nothing behind: its record, if still there, is terminal. */
  predicate Resolved(w: World, t: nat, id: string) {
    !(Wrote(w, t, id) && Live(w, id))
  }

  predicate OwnJournal(w: World, t: nat, id: string) {
    w.journal.Some? && w.journal.value.author == t && w.journal.value.operation == id
  }

  /** Its record waits for a repair, with a journal on disk to drive it. */
  predicate HandedOver(w: World, t: nat, id: string) {
    && Wrote(w, t, id)
    && w.st.operations[id].status.RecoveryRequired?
    && w.journal.Some?
    && (w.journal.value.operation == id || t in w.raced)
  }

  predicate MayLeave(w: World, t: nat)
    requires t in w.threads
  {
    var th := w.threads[t];
    var id := th.request.operation;
    || !th.role.Requester? || id == ""
    || Resolved(w, t, id) || w.c.settlementPending || t in w.leaked
    || (th.leased && HandedOver(w, t, id))
  }

  /** No journal but the worker's own, unless it was promoted over one. */
  predicate CleanStart(w: World, t: nat, id: string) {
    w.journal.Some? ==> OwnJournal(w, t, id) || t in w.raced
  }

  /** What the thread may rely on about its record and the journal. */
  predicate Relies(w: World, t: nat)
    requires t in w.threads
  {
    var th := w.threads[t];
    var id := th.request.operation;
    match th.pc
    case FirstFlush => id in w.st.operations
    case SecondFlush => id in w.st.operations
    case Tombstone | ReserveRecord => id != "" && id !in w.st.operations
    case TombstoneLookup => id in w.st.operations ==> Wrote(w, t, id) && !Live(w, id)
    case ReserveLookup =>
      id != "" && (id in w.st.operations ==>
                     Untouched(w, t, id) && S.SameRequest(w.st.operations[id], Wanted(th.request)))
    case ReserveJob | ReadFilesAgain | AwaitPromote(_) => id != "" ==> Untouched(w, t, id)
    case Admitted => (id != "" ==> Untouched(w, t, id)) && CleanStart(w, t, id)
    case Working => th.role.Requester? ==> (id != "" ==> UnderWay(w, t, id)) && CleanStart(w, t, id)
    case MarkingJournal | Journaled =>
      OwnJournal(w, t, id) && (th.role.Requester? && id != "" ==> UnderWay(w, t, id))
    case Judging => (id != "" ==> UnderWay(w, t, id)) && CleanStart(w, t, id)
    case Clearing(purpose) => w.journal.Some? && Clears(w, t, purpose)
    case ClearingPending(purpose) => w.journal.None? && Clears(w, t, purpose)
    case Transitioning(goal, after) => Transits(w, t, goal, after)
    case Confirming(goal, after) => Confirms(w, t, goal, after)
    case Settling => id != "" ==>
      if th.http < 400 then t in w.leaked else if th.leased then Steady(w, t, id) else NoOneElses(w, t, id)
    case Finishing => th.confirmed ==> MayLeave(w, t)
    case Completing => MayLeave(w, t)
    case Releasing => MayLeave(w, t)
    case CheckingLink | Repairing => w.journal.Some? && w.journal.value.operation == id
    case _ => true
  }

  predicate Clears(w: World, t: nat, purpose: Purpose)
    requires t in w.threads
  {
    var id := w.threads[t].request.operation;
    match purpose
    case ClearSuccess => (w.journal.Some? ==> OwnJournal(w, t, id)) && (id != "" ==> Resolved(w, t, id))
    case ClearAbort => (w.journal.Some? ==> OwnJournal(w, t, id)) && (id != "" ==> UnderWay(w, t, id))
    case ClearMutation => w.journal.Some? ==> OwnJournal(w, t, id)
    case ClearRepair => w.journal.Some? ==> w.journal.value.operation == id && (id != "" ==> !Live(w, id))
  }

  predicate Transits(w: World, t: nat, goal: S.Goal, after: After)
    requires t in w.threads
  {
    var th := w.threads[t];
    var id := th.request.operation;
    match after
    case AfterStart => (id != "" ==> Untouched(w, t, id)) && CleanStart(w, t, id)
    case AfterCancel => id != "" ==> Untouched(w, t, id)
    case AfterReject => id != "" ==> if th.leased then Steady(w, t, id) else NoOneElses(w, t, id)
    case AfterWork => (id != "" ==> UnderWay(w, t, id)) && JournalFor(w, t, id, goal)
    case AfterRepair | AfterRepairFailure => w.journal.Some? && w.journal.value.operation == id
  }

  /** Success leaves the worker's own journal to clear, a failure that calls for
      recovery leaves one to repair. */
  predicate JournalFor(w: World, t: nat, id: string, goal: S.Goal) {
    && (goal.status.Succeeded? ==> w.journal.Some? && OwnJournal(w, t, id))
    && (goal.status.RecoveryRequired? ==> w.journal.Some? && (w.journal.value.operation == id || t in w.raced))
  }

  predicate Confirms(w: World, t: nat, goal: S.Goal, after: After)
    requires t in w.threads
  {
    var th := w.threads[t];
    var id := th.request.operation;
    match after
    case AfterStart =>
      && Steady(w, t, id) && CleanStart(w, t, id)
      && (id in w.st.deferred ==> w.st.deferred[id].status.Running?)
      && (w.st.operations[id].status.Pending? || (w.st.operations[id].status.Running? && id !in w.st.deferred))
    case AfterCancel => NoOneElses(w, t, id)
    case AfterReject => true
    case AfterWork => JournalFor(w, t, id, goal) && (goal.status.RecoveryRequired? ==> Steady(w, t, id))
    case AfterRepair | AfterRepairFailure => w.journal.Some? && w.journal.value.operation == id
  }

  /** A thread is named as author only of its own request's record, and only
      once it has got as far as writing one. */
  predicate Authorship(w: World, t: nat)
    requires t in w.threads
  {
    var th := w.threads[t];
    forall id :: id in w.author && w.author[id] == t ==>
      && th.role.Requester? && id == th.request.operation && Engaged(th)
      && !(th.pc.SecondLookup? || th.pc.SecondFlush? || th.pc.Tombstone? || th.pc.ReserveRecord?)
  }

  /** A worker starts once: whoever is on the list is past the start. */
  predicate PastStart(th: Thread) {
    match th.pc
    case Working | MarkingJournal | Journaled | Judging | MarkingWork | Releasing => th.leased
    case Clearing(_) | ClearingPending(_) => true
    case Transitioning(_, after) => after.AfterWork?
    case Confirming(_, after) => after.AfterWork?
    case _ => false
  }

  /** Whoever was answered with an older job is on its way out, with a success. */
  predicate Replied(th: Thread) {
    !th.leased && th.http < 400 && (th.pc.Settling? || th.pc.Finishing? || th.pc.Completing?)
  }

  /** What the lists say of a thread; one promoted over a journal still has that
      journal, somebody else's, before it. */
  predicate Listed(w: World, t: nat, th: Thread) {
    && (t in w.started ==> PastStart(th))
    && (t in w.leaked ==> Replied(th))
    && (t in w.raced ==> th.role.Requester? && th.leased && w.journal.Some? && w.journal.value.author != t)
  }

  predicate ThreadOk(w: World, t: nat)
    requires t in w.threads
  {
    && Shape(w.threads[t])
    && Holds(w, t)
    && Relies(w, t)
    && Authorship(w, t)
    && Listed(w, t, w.threads[t])
  }

  // --------------------------------------------------------- Shared state

  predicate HoldersExist(w: World) {
    && (w.c.preparing.Some? ==>
          w.c.preparing.value.id in w.threads && w.threads[w.c.preparing.value.id].request == w.c.preparing.value)
    && (w.c.active.Some? ==> w.c.active.value in w.threads)
    && (forall t :: t in w.c.spent ==> t < w.next)
    && (forall t :: t in w.started ==> t < w.next)
    && (forall t :: t in w.leaked ==> t < w.next)
    && (forall t :: t in w.raced ==> t < w.next)
  }

  predicate RecordsOk(w: World) {
    && S.StoreInv(w.st, w.limits)
    && w.author.Keys == w.st.operations.Keys
    && (forall id :: id in w.author ==> w.author[id] < w.next)
  }

  predicate DeferredOnward(w: World) {
    forall id :: id in w.st.deferred ==> S.Onward(w.st, id)
  }

  predicate JournalOk(w: World) {
    w.journal.Some? ==>
      && w.journal.value.author < w.next
      && (w.journal.value.operation != "" ==> Wrote(w, w.journal.value.author, w.journal.value.operation))
      && (w.journal.value.author in w.threads ==> w.threads[w.journal.value.author].leased)
  }

  predicate TokensOk(w: World) {
    && w.consumed <= w.issued
    && (w.c.lease.Some? ==> w.c.lease.value.token != "" && w.c.lease.value.token in w.issued)
    && (w.c.lease.Some? && !w.c.lease.value.consumed ==> w.c.lease.value.token !in w.consumed)
  }

  /** A record that waits for repair has its journal on disk. */
  predicate AwaitsRepair(w: World, id: string) {
    && id in w.st.operations && id in w.author
    && w.st.operations[id].status.RecoveryRequired?
    && ((w.journal.Some? && w.journal.value.operation == id) || w.author[id] in w.raced)
  }

  /** Somebody or something still answers for the unfinished record. */
  predicate Accounted(w: World, id: string) {
    && id in w.author
    && (|| w.author[id] in w.threads
        || w.c.settlementPending
        || w.author[id] in w.leaked
        || AwaitsRepair(w, id))
  }

  predicate NoOrphans(w: World) {
    w.up ==> forall id :: id in w.st.operations && Live(w, id) ==> Accounted(w, id)
  }

  /** Why a sleeper sleeps still holds, so somebody will wake it. */
  predicate SleepsFor(w: World, t: nat) {
    t in w.threads &&
    match w.threads[t].pc
    case AwaitPrepare(first) => !first && w.c.preparing.Some?
    case AwaitPromote(first) => !first && w.c.active.Some?
    case AwaitBegin | AwaitRecovery | AwaitDrain => C.Busy(w.c)
    case _ => false
  }

  predicate SleepersOk(w: World) {
    forall t :: t in w.sleeping ==> w.sleeping[t] <= w.c.broadcasts && (Asleep(w, t) ==> SleepsFor(w, t))
  }

  predicate ThreadsOk(w: World) {
    forall t :: t in w.threads ==> ThreadOk(w, t)
  }

  predicate Inv(w: World) {
    && FailsClosed(w)
    && HoldersExist(w)
    && RecordsOk(w)
    && DeferredOnward(w)
    && JournalOk(w)
    && TokensOk(w)
    && NoOrphans(w)
    && SleepersOk(w)
    && ThreadsOk(w)
  }

  predicate Start(w: World) {
    && !w.up && !w.marker && w.journal.None? && w.st == S.Store(map[], map[], map[])
    && w.c == C.Startup(false, false)
    && w.threads == map[] && w.sleeping == map[] && w.next == 0 && w.author == map[]
    && w.started == w.leaked == w.raced == {} && w.issued == w.consumed == {}
  }

  lemma StartIsOk(w: World)
    requires Start(w)
    ensures Inv(w)
  {
  }
}
