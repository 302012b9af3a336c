/** The whole control plane as a state machine: lifecycle requests and their
    workers, other mutations, repairs and maintenance calls run as threads that
    interleave at every lock, file write and pre-lock read; writes may fail or
    fail after becoming visible; the process may restart at any point. */
module ControlPlane {
  import opened Lifecycle
  import C = Coordination
  import S = OperationStore

  datatype Role = Requester | Mutator | Repairer | Maintainer

  /** Where the outcome of a confirmed transition is used. */
  datatype After = AfterStart | AfterCancel | AfterReject | AfterWork | AfterRepair | AfterRepairFailure

  /** Why the journal is being cleared. */
  datatype Purpose = ClearSuccess | ClearAbort | ClearMutation | ClearRepair

  datatype PC =
    // a lifecycle request, before it holds the preparation
    | FirstLookup | FirstFlush | ReadFiles | AwaitPrepare(first: bool)
    // holding the preparation
    | SecondLookup | SecondFlush | Tombstone | TombstoneLookup
    | ReserveRecord | ReserveLookup | ReserveJob | ReadFilesAgain | AwaitPromote(first: bool)
    // holding the active lease
    | Admitted | Working | MarkingJournal | Journaled | Judging
    | Clearing(purpose: Purpose) | ClearingPending(purpose: Purpose) | MarkingWork | Releasing
    // the transition wrapper and the exit of a request, under either
    | Transitioning(goal: S.Goal, after: After) | Confirming(goal: S.Goal, after: After)
    | Settling | Finishing | Completing
    // other callers
    | AwaitBegin | AwaitRecovery | ReadingJournal | CheckingLink | Repairing | AwaitDrain

  datatype Thread = Thread(
    role: Role,
    pc: PC,
    request: C.Preparation, // a repair takes the journal's operation as its own
    leased: bool,
    sawMarker: bool,
    sawJournal: bool,
    confirmed: bool,
    http: nat,
    job: string) // the in-memory job it works under

  datatype Journal = Journal(operation: string, author: nat)

  /** `author` names the thread that wrote each stored record, `started` the
      requests whose worker was started, `leaked` those answered with a replay
      of a job that outlived its record, `raced` those promoted over a journal,
      `issued` and `consumed` the maintenance tokens: bookkeeping for the proof. */
  datatype World = World(
    up: bool,
    c: C.Coord,
    marker: bool,
    journal: Option<Journal>,
    st: S.Store,
    limits: S.Limits,
    threads: map<nat, Thread>,
    sleeping: map<nat, nat>,
    next: nat,
    author: map<string, nat>,
    started: set<nat>,
    leaked: set<nat>,
    raced: set<nat>,
    issued: set<string>,
    consumed: set<string>)

  /** Everything a step leaves open: the clock, the fate of a write, whether a
      call into the job table, Docker or a validation succeeds, and so on. */
  datatype Choice = Choice(now: nat, outcome: WriteOutcome, ok: bool, pick: nat, http: nat, token: string, job: string)

  datatype Event =
    | Request(request: C.Preparation)
    | Mutate
    | Repair
    | EnterMaintenance(written: bool)
    | EnterIfIdle(token: string, outcome: WriteOutcome)
    | LeaveMaintenance(removable: bool)
    | ReadyProbe
    | CancelContext(id: nat)
    | Act(t: nat, ch: Choice)
    | Restart(now: nat, outcome: WriteOutcome, later: nat, retry: WriteOutcome)

  /** What one step of a thread changes: its own state alone, the coordinator
      in one critical section, the store in one call, or the journal file. */
  datatype Step =
    | Stay(thread: Thread)
    | Leave
    | Coordinate(c: C.Coord, thread: Thread)
    | Wait(c: C.Coord, pc: PC)
    | Depart(c: C.Coord)
    | Write(st: S.Store, thread: Thread)
    | WriteLast(st: S.Store)
    | Replace(journal: Option<Journal>, thread: Thread)

  // ------------------------------------------------------------- Vocabulary

  function Blank(id: nat): C.Preparation {
    C.Preparation(id, CreateKind, "", "", "", "", false)
  }

  function Wanted(p: C.Preparation): S.Record {
    S.Record(p.operation, p.kind, p.subject, p.fingerprint, Pending, 0, NoMessage, 0, 0)
  }

  function Cancellation(p: C.Preparation): S.Record {
    Wanted(p).(status := Cancelled, http := 409, message := CancelledMessage)
  }

  predicate JournalPresent(w: World) {
    w.journal.Some?
  }

  const RUNNING_GOAL := S.Goal(Running, 202, NoMessage)
  const CANCELLED_GOAL := S.Goal(Cancelled, 409, CancelledMessage)
  const RECOVERY_GOAL := S.Goal(RecoveryRequired, 202, RecoveryMessage)

  function SuccessGoal(th: Thread): S.Goal {
    S.Goal(Succeeded, 200, SuccessMessage(th.request.kind))
  }

  function RejectedGoal(th: Thread): S.Goal {
    S.Goal(Failed, th.http, PreparationFailureMessage(th.request.kind))
  }

  function FailureGoal(w: World, t: nat, th: Thread): S.Goal {
    if JournalPresent(w) then RECOVERY_GOAL
    else if t in w.c.cancelled then CANCELLED_GOAL
    else S.Goal(Failed, 500, PreparationFailureMessage(th.request.kind))
  }

  // -------------------------------------------------- A request's admission

  /** Where a replay under a used id stops: another request, or one finished. */
  predicate Answered(w: World, p: C.Preparation)
    requires p.operation in w.st.operations
  {
    !S.SameRequest(w.st.operations[p.operation], Wanted(p)) || IsTerminal(w.st.operations[p.operation].status)
  }

  function FirstLook(w: World, th: Thread): Step {
    var p := th.request;
    if p.operation == "" || p.operation !in w.st.operations then Stay(th.(pc := ReadFiles))
    else if Answered(w, p) then Leave
    else Stay(th.(pc := FirstFlush))
  }

  function Flushed(w: World, th: Thread, ch: Choice): S.Store {
    S.Reserve(w.st, w.limits, Wanted(th.request), ch.now, ch.outcome).0
  }

  function Look(w: World, th: Thread, pc: PC): Thread {
    th.(pc := pc, sawMarker := w.marker, sawJournal := JournalPresent(w))
  }

  /** The coordinator once it has merged what the thread read before the lock. */
  function Observed(w: World, th: Thread, first: bool): C.Coord {
    if first then C.Observe(w.c, th.sawMarker, th.sawJournal) else w.c
  }

  function PrepareTurn(w: World, th: Thread, first: bool): Step {
    var (d, turn) := C.PrepareTurn(Observed(w, th, first), th.request);
    match turn
    case Waiting => Wait(d, AwaitPrepare(false))
    case Granted => Coordinate(d, th.(pc := SecondLookup, request := d.preparing.value))
    case _ => Depart(d)
  }

  function SecondLook(w: World, th: Thread): PC {
    var p := th.request;
    if p.operation == "" then ReserveJob
    else if p.operation !in w.st.operations then if p.refused then Tombstone else ReserveRecord
    else if Answered(w, p) then Completing
    else SecondFlush
  }

  function WriteTombstone(w: World, th: Thread, ch: Choice): Step {
    var (st, r) := S.Reserve(w.st, w.limits, Cancellation(th.request), ch.now, ch.outcome);
    Write(st, th.(pc := if r.Reserved? then Completing else TombstoneLookup))
  }

  predicate TombstoneShows(w: World, p: C.Preparation) {
    && p.operation in w.st.operations
    && S.SameRequest(w.st.operations[p.operation], Wanted(p))
    && S.Shows(w.st.operations, p.operation, CANCELLED_GOAL)
  }

  function WriteReservation(w: World, th: Thread, ch: Choice): Step {
    var (st, r) := S.Reserve(w.st, w.limits, Wanted(th.request), ch.now, ch.outcome);
    Write(st, th.(pc :=
      if r.Reserved? then ReserveJob
      else if r.Existing? || r.SettlementPending? then Completing
      else ReserveLookup))
  }

  function ReservationLook(w: World, th: Thread): PC {
    var p := th.request;
    if p.operation in w.st.operations && S.SameRequest(w.st.operations[p.operation], Wanted(p)) then ReserveJob
    else Completing
  }

  /** The job table answers with a new job, an error, or an older job. */
  function TakeJob(th: Thread, ch: Choice): Thread {
    if ch.pick == 0 then th.(pc := ReadFilesAgain, job := ch.job)
    else if ch.pick == 1 then th.(pc := Settling, http := ch.http)
    else th.(pc := Settling, http := 200)
  }

  function Reject(th: Thread, http: nat): Thread {
    th.(pc := Transitioning(CANCELLED_GOAL, AfterCancel), http := http)
  }

  function PromoteTurn(w: World, th: Thread, first: bool, claimed: bool): Step {
    var (d, turn) := C.PromoteTurn(Observed(w, th, first), th.request, th.job, claimed);
    match turn
    case Waiting => Wait(d, AwaitPromote(false))
    case Granted => Coordinate(d, th.(pc := Admitted, leased := true))
    case NotPending => Coordinate(d, Reject(th, 409))
    case Refused => Coordinate(d, Reject(th, 503))
  }

  // ------------------------------------------------ The transition wrapper

  /** What follows a transition, by whether the wrapper confirmed it. */
  function Resume(th: Thread, goal: S.Goal, after: After, ok: bool): Thread {
    match after
    case AfterStart => if ok then th.(pc := Working) else th.(pc := Settling, http := 500)
    case AfterCancel => th.(pc := Settling, confirmed := th.confirmed && ok)
    case AfterReject => th.(pc := Finishing, confirmed := th.confirmed && ok)
    case AfterWork =>
      th.(pc := if !ok then MarkingWork else if goal.status.Succeeded? then Clearing(ClearSuccess) else Releasing)
    case AfterRepair =>
      th.(pc := if ok then Clearing(ClearRepair) else Transitioning(RECOVERY_GOAL, AfterRepairFailure))
    case AfterRepairFailure => th.(pc := Releasing)
  }

  function Transition(w: World, th: Thread, goal: S.Goal, after: After, ch: Choice): Step {
    var id := th.request.operation;
    if id == "" then Stay(Resume(th, goal, after, true))
    else
      var (st, r) := S.Transition(w.st, w.limits, id, goal, ch.now, ch.outcome);
      Write(st, if r.Moved? then Resume(th, goal, after, true) else th.(pc := Confirming(goal, after)))
  }

  // ------------------------------------------------------- The worker's part

  function StartWorker(th: Thread, ch: Choice): Thread {
    if ch.ok then th.(pc := Transitioning(RUNNING_GOAL, AfterStart)) else th.(pc := Settling, http := ch.http)
  }

  /** Validation may fail, and a journal is written only where there is none. */
  function Work(w: World, t: nat, th: Thread, ch: Choice): Step {
    var failed := th.(pc := if th.role.Mutator? then Releasing else Judging);
    if !ch.ok || JournalPresent(w) || ch.outcome.NotCommitted? then Stay(failed)
    else Replace(Some(Journal(th.request.operation, t)),
                 if ch.outcome.Persisted? then th.(pc := MarkingJournal) else failed)
  }

  function FinishWork(w: World, t: nat, th: Thread, ch: Choice): PC {
    if th.role.Mutator? then if ch.ok then Clearing(ClearMutation) else Releasing
    else if ch.pick == 0 && t !in w.c.cancelled then Transitioning(SuccessGoal(th), AfterWork)
    else if ch.pick == 1 then Clearing(ClearAbort)
    else Judging
  }

  function AfterClearing(purpose: Purpose, ok: bool): PC {
    match purpose
    case ClearSuccess => if ok then Releasing else MarkingWork
    case ClearAbort => Judging
    case ClearMutation => Releasing
    case ClearRepair => Releasing
  }

  function RemoveJournal(th: Thread, purpose: Purpose, ch: Choice): Step {
    match ch.outcome
    case Persisted => Replace(None, th.(pc := ClearingPending(purpose)))
    case CommittedUnsynced => Replace(None, th.(pc := AfterClearing(purpose, false)))
    case NotCommitted => Stay(th.(pc := AfterClearing(purpose, false)))
  }

  // ----------------------------------------------------- A request's exit

  /** An exit may still settle a pending record, or a running one it leases. */
  predicate Rejectable(w: World, t: nat, id: string) {
    id in w.st.operations &&
    (w.st.operations[id].status.Pending? || (w.st.operations[id].status.Running? && w.c.active == Some(t)))
  }

  function Settle(w: World, t: nat, th: Thread): Thread {
    var id := th.request.operation;
    if id == "" || th.http < 400 then th.(pc := Finishing)
    else if Rejectable(w, t, id) then th.(pc := Transitioning(RejectedGoal(th), AfterReject))
    else th.(pc := Finishing, confirmed := th.confirmed && id in w.st.operations
             && IsTerminal(w.st.operations[id].status))
  }

  function Finish(w: World, th: Thread): Step {
    if th.confirmed then Stay(th.(pc := Completing))
    else Coordinate(C.MarkSettlementPending(w.c), th.(pc := Completing))
  }

  function Complete(w: World, t: nat, th: Thread): Step {
    var d := C.Complete(w.c, t, th.confirmed);
    if th.leased then Coordinate(d, th.(pc := Releasing)) else Depart(d)
  }

  // ------------------------------------------------------------ Other callers

  function BeginTurn(w: World, t: nat, th: Thread): Step {
    var (d, turn) := C.BeginTurn(w.c, t, JournalPresent(w), true);
    match turn
    case Waiting => Wait(d, AwaitBegin)
    case Granted => Coordinate(d, th.(pc := Working, leased := true))
    case _ => Depart(d)
  }

  function BeginRecoveryTurn(w: World, t: nat, th: Thread): Step {
    var (d, turn) := C.BeginRecoveryTurn(w.c, t, JournalPresent(w));
    match turn
    case Waiting => Wait(d, AwaitRecovery)
    case Granted => Coordinate(d, th.(pc := ReadingJournal, leased := true))
    case _ => Depart(d)
  }

  function ReadJournal(w: World, th: Thread, ch: Choice): Thread {
    if w.journal.None? || !ch.ok then th.(pc := Releasing)
    else th.(pc := CheckingLink, request := th.request.(operation := w.journal.value.operation))
  }

  function CheckLink(w: World, th: Thread, ch: Choice): PC {
    var id := th.request.operation;
    if id == "" then Repairing
    else if id !in w.st.operations || !ch.ok then Releasing
    else if w.st.operations[id].status.Succeeded? then Clearing(ClearRepair)
    else Repairing
  }

  function RepairVerdict(th: Thread, ch: Choice): PC {
    if ch.pick == 0 then Transitioning(SuccessGoal(th), AfterRepair)
    else if ch.pick == 1 then Transitioning(CANCELLED_GOAL, AfterRepair)
    else Transitioning(RECOVERY_GOAL, AfterRepairFailure)
  }

  function DrainTurn(w: World, ch: Choice): Step {
    var (d, turn) := C.DrainedTurn(w.c, ch.token);
    if turn.StillBusy? then Wait(d, AwaitDrain) else Depart(d)
  }

  // -------------------------------------------------------------- One step

  predicate Admitting(pc: PC) {
    pc.FirstLookup? || pc.FirstFlush? || pc.ReadFiles? || pc.AwaitPrepare? || pc.SecondLookup? || pc.SecondFlush?
    || pc.Tombstone? || pc.TombstoneLookup? || pc.ReserveRecord? || pc.ReserveLookup? || pc.ReserveJob?
  }

  function Admission(w: World, th: Thread, ch: Choice): Step
    requires Admitting(th.pc)
  {
    match th.pc
    case FirstLookup => FirstLook(w, th)
    case FirstFlush => WriteLast(Flushed(w, th, ch))
    case ReadFiles => Stay(Look(w, th, AwaitPrepare(true)))
    case AwaitPrepare(first) => PrepareTurn(w, th, first)
    case SecondLookup => Stay(th.(pc := SecondLook(w, th)))
    case SecondFlush => Write(Flushed(w, th, ch), th.(pc := Completing))
    case Tombstone => WriteTombstone(w, th, ch)
    case TombstoneLookup => Stay(th.(pc := Completing, confirmed := TombstoneShows(w, th.request)))
    case ReserveRecord => WriteReservation(w, th, ch)
    case ReserveLookup => Stay(th.(pc := ReservationLook(w, th)))
    case ReserveJob => Stay(TakeJob(th, ch))
  }

  predicate Serving(pc: PC) {
    pc.ReadFilesAgain? || pc.AwaitPromote? || pc.Admitted? || pc.Working? || pc.MarkingJournal? || pc.Journaled?
    || pc.Judging?
  }

  function Service(w: World, t: nat, th: Thread, ch: Choice): Step
    requires Serving(th.pc)
  {
    match th.pc
    case ReadFilesAgain => Stay(if ch.ok then Look(w, th, AwaitPromote(true)) else Reject(th, 503))
    case AwaitPromote(first) => PromoteTurn(w, th, first, ch.ok)
    case Admitted => Stay(StartWorker(th, ch))
    case Working => Work(w, t, th, ch)
    case MarkingJournal => Coordinate(C.MarkJournalPending(w.c), th.(pc := Journaled))
    case Journaled => Stay(th.(pc := FinishWork(w, t, th, ch)))
    case Judging => Stay(th.(pc := Transitioning(FailureGoal(w, t, th), AfterWork)))
  }

  predicate Exiting(pc: PC) {
    pc.Clearing? || pc.ClearingPending? || pc.MarkingWork? || pc.Releasing?
    || pc.Transitioning? || pc.Confirming? || pc.Settling? || pc.Finishing? || pc.Completing?
  }

  function Exit(w: World, t: nat, th: Thread, ch: Choice): Step
    requires Exiting(th.pc)
  {
    match th.pc
    case Clearing(purpose) => RemoveJournal(th, purpose, ch)
    case ClearingPending(purpose) =>
      Coordinate(C.ClearJournalPending(w.c, w.marker), th.(pc := AfterClearing(purpose, true)))
    case MarkingWork => Coordinate(C.MarkSettlementPending(w.c), th.(pc := Releasing))
    case Releasing => Depart(C.Done(w.c, t, JournalPresent(w)))
    case Transitioning(goal, after) => Transition(w, th, goal, after, ch)
    case Confirming(goal, after) => Stay(Resume(th, goal, after, S.Shows(w.st.operations, th.request.operation, goal)))
    case Settling => Stay(Settle(w, t, th))
    case Finishing => Finish(w, th)
    case Completing => Complete(w, t, th)
  }

  function Errand(w: World, t: nat, th: Thread, ch: Choice): Step
    requires !Admitting(th.pc) && !Serving(th.pc) && !Exiting(th.pc)
  {
    match th.pc
    case AwaitBegin => BeginTurn(w, t, th)
    case AwaitRecovery => BeginRecoveryTurn(w, t, th)
    case ReadingJournal => Stay(ReadJournal(w, th, ch))
    case CheckingLink => Stay(th.(pc := CheckLink(w, th, ch)))
    case Repairing => Stay(th.(pc := RepairVerdict(th, ch)))
    case AwaitDrain => DrainTurn(w, ch)
  }

  function Next(w: World, t: nat, ch: Choice): Step
    requires t in w.threads
  {
    var th := w.threads[t];
    if Admitting(th.pc) then Admission(w, th, ch)
    else if Serving(th.pc) then Service(w, t, th, ch)
    else if Exiting(th.pc) then Exit(w, t, th, ch)
    else Errand(w, t, th, ch)
  }

  /** Records keep their authors; a record that was not there is `t`'s. */
  function Authors(w: World, t: nat, st: S.Store): map<string, nat>
    requires w.author.Keys >= w.st.operations.Keys
  {
    map id | id in st.operations :: if id in w.st.operations then w.author[id] else t
  }

  function AddIf(s: set<nat>, t: nat, add: bool): set<nat> {
    if add then s + {t} else s
  }

  function Perform(w: World, t: nat, step: Step): World
    requires t in w.threads && w.author.Keys >= w.st.operations.Keys
  {
    match step
    case Stay(th) =>
      w.(threads := w.threads[t := th],
         started := AddIf(w.started, t, th.pc.Working?),
         leaked := AddIf(w.leaked, t, th.pc.Settling? && th.http < 400))
    case Leave =>
      w.(threads := w.threads - {t})
    case Coordinate(c, th) =>
      w.(c := c, threads := w.threads[t := th],
         raced := AddIf(w.raced, t, th.pc.Admitted? && JournalPresent(w)),
         consumed := if th.pc.Admitted? && c.closed then w.consumed + {th.request.attempt} else w.consumed)
    case Wait(c, pc) =>
      w.(c := c, threads := w.threads[t := w.threads[t].(pc := pc)], sleeping := w.sleeping[t := c.broadcasts])
    case Depart(c) =>
      w.(c := c, threads := w.threads - {t},
         issued := if c.lease.Some? && c.lease != w.c.lease then w.issued + {c.lease.value.token} else w.issued)
    case Write(st, th) =>
      w.(st := st, author := Authors(w, t, st), threads := w.threads[t := th],
         started := AddIf(w.started, t, th.pc.Working?))
    case WriteLast(st) =>
      w.(st := st, author := Authors(w, t, st), threads := w.threads - {t})
    case Replace(journal, th) =>
      w.(journal := journal, threads := w.threads[t := th])
  }

  function Spawn(w: World, role: Role, pc: PC, request: C.Preparation): World {
    w.(threads := w.threads[w.next := Thread(role, pc, request, false, false, false, true, 200, "")],
       next := w.next + 1)
  }

  function RestartAt(w: World, now: nat, outcome: WriteOutcome, later: nat, retry: WriteOutcome): World
    requires w.author.Keys >= w.st.file.Keys
  {
    var (st, ok) := S.Startup(w.st.file, w.limits, if w.journal.Some? then w.journal.value.operation else "", now,
                              outcome, later, retry);
    w.(up := ok,
       c := C.Startup(w.marker, JournalPresent(w)),
       st := st,
       threads := map[],
       sleeping := map[],
       author := map id | id in st.operations && id in w.author :: w.author[id])
  }

  function Apply(w: World, e: Event): World
    requires Enabled(w, e)
  {
    match e
    case Request(request) => Spawn(w, Requester, FirstLookup, request)
    case Mutate => Spawn(w, Mutator, AwaitBegin, Blank(w.next))
    case Repair => Spawn(w, Repairer, AwaitRecovery, Blank(w.next))
    case EnterMaintenance(written) =>
      if w.marker || written then
        Spawn(w, Maintainer, AwaitDrain, Blank(w.next)).(c := C.EnterMaintenance(w.c), marker := true)
      else w
    case EnterIfIdle(token, outcome) =>
      var (d, ok) := C.EnterIfIdle(w.c, w.marker, JournalPresent(w), token, outcome);
      w.(c := d,
         marker := w.marker || (C.Idle(w.c, w.marker, JournalPresent(w)) && Visible(outcome)),
         issued := if ok then w.issued + {token} else w.issued)
    case LeaveMaintenance(removable) =>
      var (d, turn) := C.Leave(w.c, JournalPresent(w), removable || !w.marker);
      w.(c := d, marker := w.marker && !turn.Opened?)
    case ReadyProbe => w.(c := C.Probe(w.c, JournalPresent(w)))
    case CancelContext(id) => w.(c := w.c.(cancelled := w.c.cancelled + {id}))
    case Act(t, ch) => Perform(w, t, Next(w, t, ch))
    case Restart(now, outcome, later, retry) => RestartAt(w, now, outcome, later, retry)
  }

  // ------------------------------------------------------------ Enabledness

  predicate Asleep(w: World, t: nat) {
    t in w.sleeping && w.sleeping[t] == w.c.broadcasts
  }

  predicate Fresh(w: World, token: string) {
    token != "" && token !in w.issued
  }

  /** Retention outlasts a request's pause between finding an unfinished record
      and replaying it, and a journal's wait for its repair. */
  predicate RetentionHolds(w: World, now: nat) {
    && JournalRetained(w, now)
    && (forall t :: t in w.threads && Replaying(w.threads[t]) && w.threads[t].request.operation in w.st.operations ==>
          !S.Expired(w.st.operations[w.threads[t].request.operation], now, w.limits.retention))
  }

  predicate JournalRetained(w: World, now: nat) {
    w.journal.Some? && w.journal.value.operation in w.st.operations ==>
      !S.Expired(w.st.operations[w.journal.value.operation], now, w.limits.retention)
  }

  predicate Replaying(th: Thread) {
    th.pc.FirstFlush? || th.pc.SecondFlush?
  }

  predicate Enabled(w: World, e: Event) {
    && w.author.Keys >= w.st.operations.Keys
    && w.author.Keys >= w.st.file.Keys
    && (e.Restart? || w.up)
    && (e.Request? ==> e.request.id == w.next && !e.request.refused)
    && (e.EnterIfIdle? ==> Fresh(w, e.token))
    && (e.Act? ==>
          && e.t in w.threads && !Asleep(w, e.t) && Fresh(w, e.ch.token)
          && RetentionHolds(w, e.ch.now) && 400 <= e.ch.http <= 599)
    && (e.Restart? ==> JournalRetained(w, e.now) && JournalRetained(w, e.later))
  }
}
