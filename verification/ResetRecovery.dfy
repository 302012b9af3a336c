/** A server reset under crashes: the worker, the repairs that may follow it, any
    number of times, and restarts of the process between any two file writes or
    Docker calls. The stack is tracked through the env its data was seeded from. */
module ResetRecovery {
  import opened Lifecycle
  import L = Ledger
  import opened EnvFile
  import opened EnvPatch
  import opened Registry

  // ------------------------------------------------------------------ State

  datatype Stage = Prepared | EnvUpdated | RegistrySynced | DownPending

  datatype PC =
    // the worker
    | Validate | WriteJournal | PatchEnv | StageEnv | SyncEntry | StageRegistry | StageDown
    | Down | AfterDown | Up(retry: bool) | Verify | Reconcile | ClearRepair | Reload | VerifyShared
    | MarkRepair | Finish(ok: bool) | ClearJournal
    // a repair
    | Lookup | RepairPatch | RepairStageEnv | RepairReconcile | MarkFirst | RepairStageDown
    | RepairDown | RepairUp | RepairVerify | RepairReconcileAgain | RepairClear | RepairReload | RepairVerifyShared
    | MarkAgain | Fail | Settle | RepairClearJournal
    // a repair that finds the operation already succeeded
    | CheckEnv | CheckRuntime | CheckReconcile | CheckClear | CheckShared
    // nobody at work; or no process at all
    | Idle | Stopped

  type Env = seq<EnvLine>

  /** `repair` is the repair flag of the registry entry, `entry` the rest of it;
      `volumes` the env the stack's data was seeded from, if it has any;
      `record` the operation's status, or the last it had when `stored` no longer
      holds; `deferred` the status that the store still has to write. */
  datatype Site = Site(
    env: Env,
    entry: Entry,
    repair: bool,
    volumes: Option<Env>,
    journal: Option<Stage>,
    record: Status,
    stored: bool,
    deferred: Option<Status>,
    pc: PC)

  /** What the reset starts from and what it does: `patch` writes the journalled
      updates into an env, `derive` an entry from it, `shows` is what a stack
      seeded from it reports, `carries` whether it has every update. */
  datatype Origin = Origin(
    env: Env,
    entry: Entry,
    volumes: Option<Env>,
    patch: Env -> Env,
    derive: (Env, Entry) -> Entry,
    shows: Env -> (string, Option<nat>),
    carries: Env -> bool)

  /** How a call ends: `effect` is what a failed call did all the same. */
  datatype Choice = Choice(ok: bool, outcome: WriteOutcome, effect: bool)

  datatype Event =
    | Act(ch: Choice) | StartRepair | Flush(outcome: WriteOutcome) | Restart(outcome: WriteOutcome) | Expire

  // ---------------------------------------------------------------- Effects

  function Target(o: Origin): Env {
    o.patch(o.env)
  }

  /** A running stack reports the scenario and generation its data was seeded with. */
  predicate Healthy(o: Origin, s: Site) {
    s.volumes.Some? && o.shows(s.volumes.value) == o.shows(s.env)
  }

  function Seeded(s: Site): Option<Env> {
    if s.volumes.None? then Some(s.env) else s.volumes
  }

  /** `down` removes the data; a failed one may have removed it. */
  function TakeDown(s: Site, ch: Choice, next: PC, failed: PC): Site {
    s.(volumes := if ch.ok || ch.effect then None else s.volumes, pc := if ch.ok then next else failed)
  }

  /** `up` seeds data only where there is none; a failed one may have seeded it. */
  function BringUp(s: Site, ch: Choice, next: PC, failed: PC): Site {
    s.(volumes := if ch.ok || ch.effect then Seeded(s) else s.volumes, pc := if ch.ok then next else failed)
  }

  /** A durable write that is visible but not synced counts as failed. */
  function Advance(s: Site, stage: Stage, ch: Choice, next: PC, failed: PC): Site {
    s.(journal := if Visible(ch.outcome) then Some(stage) else s.journal,
       pc := if ch.outcome.Persisted? then next else failed)
  }

  function SetRepair(s: Site, required: bool, ch: Choice, next: PC, failed: PC): Site {
    s.(repair := if Visible(ch.outcome) then required else s.repair,
       pc := if ch.outcome.Persisted? then next else failed)
  }

  function Sync(o: Origin, s: Site, ch: Choice, next: PC, failed: PC): Site {
    s.(entry := if ch.ok then o.derive(s.env, s.entry) else s.entry, pc := if ch.ok then next else failed)
  }

  function If(s: Site, ok: bool, next: PC, failed: PC): Site {
    s.(pc := if ok then next else failed)
  }

  function WithLine(s: Site, line: L.Line): Site {
    s.(record := line.record, deferred := line.deferred)
  }

  function Move(s: Site, goal: Status, outcome: WriteOutcome): Site {
    WithLine(s, L.Moved(L.Line(s.record, s.deferred), goal, outcome))
  }

  predicate Shows(s: Site, goal: Status) {
    s.stored && s.record == goal
  }

  function Remove(s: Site, ch: Choice): Site {
    s.(journal := if Visible(ch.outcome) then None else s.journal, pc := Idle)
  }

  // ------------------------------------------------------------------ Steps

  predicate Begins(pc: PC) {
    pc.Validate? || pc.WriteJournal? || pc.PatchEnv? || pc.StageEnv? || pc.SyncEntry? || pc.StageRegistry?
    || pc.StageDown?
  }

  /** Up to the journal's last stage: a failure here leaves the data alone. */
  function Begin(o: Origin, s: Site, ch: Choice): Site
    requires Begins(s.pc)
  {
    match s.pc
    case Validate => If(s, ch.ok, WriteJournal, Finish(false))
    case WriteJournal => Advance(s, Prepared, ch, PatchEnv, Finish(false))
    case PatchEnv => if ch.ok then s.(env := o.patch(s.env), pc := StageEnv) else s.(pc := Finish(false))
    case StageEnv => Advance(s, EnvUpdated, ch, SyncEntry, Finish(false))
    case SyncEntry => Sync(o, s, ch, StageRegistry, Finish(false))
    case StageRegistry => Advance(s, RegistrySynced, ch, StageDown, Finish(false))
    case StageDown => Advance(s, DownPending, ch, Down, Finish(false))
  }

  predicate Resets(pc: PC) {
    pc.Down? || pc.AfterDown? || pc.Up? || pc.Verify? || pc.Reconcile? || pc.ClearRepair? || pc.Reload?
    || pc.VerifyShared? || pc.MarkRepair?
  }

  /** From `down` on, every failure marks the entry as requiring repair. */
  function Reset(o: Origin, s: Site, ch: Choice): Site
    requires Resets(s.pc)
  {
    match s.pc
    case Down => TakeDown(s, ch, AfterDown, MarkRepair)
    case AfterDown => If(s, ch.ok, Up(false), MarkRepair)
    case Up(retry) => BringUp(s, ch, Verify, if retry then MarkRepair else Up(true))
    case Verify => If(s, ch.ok && Healthy(o, s), Reconcile, MarkRepair)
    case Reconcile => Sync(o, s, ch, ClearRepair, MarkRepair)
    case ClearRepair => SetRepair(s, false, ch, Reload, MarkRepair)
    case Reload => If(s, ch.ok, VerifyShared, MarkRepair)
    case VerifyShared => If(s, ch.ok && !s.repair, Finish(true), MarkRepair)
    case MarkRepair => SetRepair(s, true, ch, Finish(false), Finish(false))
  }

  predicate Ends(pc: PC) {
    pc.Finish? || pc.ClearJournal?
  }

  /** The worker's end: a cancelled context turns a success into a failure. */
  function End(s: Site, ch: Choice): Site
    requires Ends(s.pc)
  {
    match s.pc
    case Finish(ok) =>
      var goal :=
        if ok && ch.ok then Succeeded
        else if s.journal.Some? then RecoveryRequired
        else if ch.effect then Cancelled else Failed;
      var t := Move(s, goal, ch.outcome);
      t.(pc := if goal.Succeeded? && Shows(t, Succeeded) then ClearJournal else Idle)
    case ClearJournal => Remove(s, ch)
  }

  predicate Repairs(pc: PC) {
    pc.Lookup? || pc.RepairPatch? || pc.RepairStageEnv? || pc.RepairReconcile? || pc.MarkFirst? || pc.RepairStageDown?
  }

  function Repair(o: Origin, s: Site, ch: Choice): Site
    requires Repairs(s.pc)
  {
    match s.pc
    case Lookup => s.(pc := if !ch.ok || !s.stored then Idle else if s.record.Succeeded? then CheckEnv else RepairPatch)
    case RepairPatch =>
      if !ch.ok then s.(pc := Fail)
      else s.(env := o.patch(s.env), pc := if s.journal == Some(Prepared) then RepairStageEnv else RepairReconcile)
    case RepairStageEnv => Advance(s, EnvUpdated, ch, RepairReconcile, Fail)
    case RepairReconcile => Sync(o, s, ch, MarkFirst, Fail)
    case MarkFirst => SetRepair(s, true, ch, RepairStageDown, Fail)
    case RepairStageDown => Advance(s, DownPending, ch, RepairDown, MarkAgain)
  }

  predicate Rebuilds(pc: PC) {
    pc.RepairDown? || pc.RepairUp? || pc.RepairVerify? || pc.RepairReconcileAgain? || pc.RepairClear?
    || pc.RepairReload?
    || pc.RepairVerifyShared? || pc.MarkAgain?
  }

  function Rebuild(o: Origin, s: Site, ch: Choice): Site
    requires Rebuilds(s.pc)
  {
    match s.pc
    case RepairDown => TakeDown(s, ch, RepairUp, MarkAgain)
    case RepairUp => BringUp(s, ch, RepairVerify, MarkAgain)
    case RepairVerify => If(s, ch.ok && Healthy(o, s), RepairReconcileAgain, MarkAgain)
    case RepairReconcileAgain => Sync(o, s, ch, RepairClear, MarkAgain)
    case RepairClear => SetRepair(s, false, ch, RepairReload, MarkAgain)
    case RepairReload => If(s, ch.ok, RepairVerifyShared, MarkAgain)
    case RepairVerifyShared => If(s, ch.ok && !s.repair, Settle, MarkAgain)
    case MarkAgain => SetRepair(s, true, ch, Fail, Fail)
  }

  predicate Settles(pc: PC) {
    pc.Fail? || pc.Settle? || pc.RepairClearJournal?
    || pc.CheckEnv? || pc.CheckRuntime? || pc.CheckReconcile? || pc.CheckClear? || pc.CheckShared?
  }

  /** The end of a repair, and the repair of an operation already succeeded,
      which only verifies and never touches the record. */
  function SettleStep(o: Origin, s: Site, ch: Choice): Site
    requires Settles(s.pc)
  {
    match s.pc
    case Fail => Move(s, RecoveryRequired, ch.outcome).(pc := Idle)
    case Settle =>
      var t := Move(s, Succeeded, ch.outcome);
      t.(pc := if Shows(t, Succeeded) then RepairClearJournal else Fail)
    case RepairClearJournal => Remove(s, ch)
    case CheckEnv => If(s, ch.ok && o.carries(s.env), CheckRuntime, Idle)
    case CheckRuntime => If(s, ch.ok && Healthy(o, s), CheckReconcile, Idle)
    case CheckReconcile => Sync(o, s, ch, CheckClear, Idle)
    case CheckClear => SetRepair(s, false, ch, CheckShared, Idle)
    case CheckShared => If(s, ch.ok && !s.repair, RepairClearJournal, Idle)
  }

  function Step(o: Origin, s: Site, ch: Choice): Site {
    if Begins(s.pc) then Begin(o, s, ch)
    else if Resets(s.pc) then Reset(o, s, ch)
    else if Ends(s.pc) then End(s, ch)
    else if Repairs(s.pc) then Repair(o, s, ch)
    else if Rebuilds(s.pc) then Rebuild(o, s, ch)
    else if Settles(s.pc) then SettleStep(o, s, ch)
    else s
  }

  /** Start-up settles what the last process left: only the journal's own
      operation stays open. A start-up that cannot write it stops. */
  function Restarted(s: Site, outcome: WriteOutcome): Site {
    var record := L.Recovered(s.record, s.journal.Some?);
    s.(record := if Visible(outcome) then record else s.record,
       deferred := None,
       pc := if outcome.Persisted? || record == s.record then Idle else Stopped)
  }

  /** A retry of the same request writes the deferred status. */
  function Flushed(s: Site, outcome: WriteOutcome): Site {
    if s.pc.Stopped? then s else WithLine(s, L.Flushed(L.Line(s.record, s.deferred), outcome))
  }

  /** Retention drops a finished record, whether or not the journal names it. */
  function Expired(s: Site): Site {
    s.(stored := s.stored && !IsTerminal(s.record))
  }

  function Apply(o: Origin, s: Site, e: Event): Site {
    match e
    case Act(ch) => Step(o, s, ch)
    case StartRepair => if s.pc.Idle? && s.journal.Some? then s.(pc := Lookup) else s
    case Flush(outcome) => Flushed(s, outcome)
    case Restart(outcome) => Restarted(s, outcome)
    case Expire => Expired(s)
  }

  function Run(o: Origin, s: Site, events: seq<Event>): Site
    decreases |events|
  {
    if events == [] then s else Run(o, Apply(o, s, events[0]), events[1..])
  }

  /** The worker has been started; nothing has been written yet. */
  function Initial(o: Origin): Site {
    Site(o.env, o.entry, false, o.volumes, None, Running, true, None, Validate)
  }

  // -------------------------------------------------------------- Invariant

  function TargetEntry(o: Origin): Entry {
    o.derive(Target(o), o.entry)
  }

  /** All that recovery needs of them: each may be done twice. */
  predicate Lawful(o: Origin) {
    o.patch(Target(o)) == Target(o) && o.derive(Target(o), TargetEntry(o)) == TargetEntry(o)
  }

  predicate Untouched(o: Origin, s: Site) {
    s.env == o.env && s.entry == o.entry && !s.repair && s.volumes == o.volumes && !s.record.Succeeded?
    && (s.deferred.Some? ==> s.deferred.value.Failed? || s.deferred.value.Cancelled?)
  }

  /** Env, registry entry and data are the ones the reset was asked for. */
  predicate Achieved(o: Origin, s: Site) {
    s.env == Target(o) && s.entry == TargetEntry(o) && !s.repair && s.volumes == Some(Target(o))
  }

  predicate Converged(o: Origin, s: Site) {
    Achieved(o, s) && s.journal.None? && s.record.Succeeded?
  }

  predicate Ranges(o: Origin, s: Site) {
    && (s.env == o.env || s.env == Target(o))
    && (s.entry == o.entry || s.entry == TargetEntry(o))
    && (s.volumes == o.volumes || s.volumes.None? || s.volumes == Some(Target(o)))
  }

  /** Whether a success is recorded, or waits to be. */
  predicate ClaimsSuccess(s: Site) {
    s.record.Succeeded? || s.deferred == Some(Succeeded)
  }

  predicate AtStage(o: Origin, s: Site, stage: Stage) {
    && (s.record.Running? || s.record.RecoveryRequired? || s.record.Succeeded?)
    && (s.deferred.Some? ==> s.deferred.value.RecoveryRequired? || s.deferred.value.Succeeded?)
    && (stage.Prepared? ==> s.entry == o.entry && !s.repair)
    && (!stage.Prepared? ==> s.env == Target(o))
    && (!stage.DownPending? ==> s.volumes == o.volumes)
    && (stage.RegistrySynced? || stage.DownPending? ==> s.entry == TargetEntry(o))
    && (ClaimsSuccess(s) ==> stage.DownPending? && (s.volumes.None? || s.volumes == Some(Target(o))))
  }

  /** Where the journal stands is all a repair knows, and enough. */
  predicate Consistent(o: Origin, s: Site) {
    && Ranges(o, s)
    && match s.journal
       case None => (Untouched(o, s) || Converged(o, s)) && !s.record.RecoveryRequired?
       case Some(stage) => AtStage(o, s, stage)
  }

  /** What each point of the code relies on. */
  predicate Placed(o: Origin, s: Site) {
    match s.pc
    case Validate | WriteJournal => s.journal.None? && !s.record.Succeeded?
    case PatchEnv => s.journal == Some(Prepared)
    case StageEnv => s.journal == Some(Prepared) && s.env == Target(o)
    case SyncEntry => s.journal == Some(EnvUpdated)
    case StageRegistry => s.journal == Some(EnvUpdated) && s.entry == TargetEntry(o)
    case StageDown => s.journal == Some(RegistrySynced)
    case Down | MarkRepair => s.journal == Some(DownPending)
    case AfterDown => s.journal == Some(DownPending) && s.volumes.None?
    case Up(retry) => s.journal == Some(DownPending) && (s.volumes.None? || (retry && s.volumes == Some(Target(o))))
    case Verify | Reconcile | ClearRepair => s.journal == Some(DownPending) && s.volumes == Some(Target(o))
    case Reload | VerifyShared => s.journal == Some(DownPending) && Achieved(o, s)
    case Finish(ok) =>
      if ok then s.journal == Some(DownPending) && Achieved(o, s) else s.journal.None? ==> !s.record.Succeeded?
    case ClearJournal => s.journal == Some(DownPending) && Achieved(o, s) && s.record.Succeeded?
    case Lookup | RepairPatch | Fail => s.journal.Some?
    case RepairStageEnv => s.journal == Some(Prepared) && s.env == Target(o)
    case RepairReconcile => s.journal.Some? && s.journal != Some(Prepared)
    case MarkFirst | RepairStageDown => s.journal.Some? && s.journal != Some(Prepared) && s.entry == TargetEntry(o)
    case RepairDown | MarkAgain =>
      s.journal.Some? && s.journal != Some(Prepared) && (s.pc.RepairDown? ==> s.journal == Some(DownPending))
    case RepairUp => s.journal == Some(DownPending) && s.volumes.None?
    case RepairVerify | RepairReconcileAgain | RepairClear =>
      s.journal == Some(DownPending) && s.volumes == Some(Target(o))
    case RepairReload | RepairVerifyShared | Settle => s.journal == Some(DownPending) && Achieved(o, s)
    case RepairClearJournal => s.journal == Some(DownPending) && Achieved(o, s) && s.record.Succeeded?
    case CheckEnv | CheckRuntime => s.journal == Some(DownPending) && s.record.Succeeded?
    case CheckReconcile | CheckClear =>
      s.journal == Some(DownPending) && s.record.Succeeded? && s.volumes == Some(Target(o))
    case CheckShared => s.journal == Some(DownPending) && s.record.Succeeded? && Achieved(o, s)
    case Idle => s.journal.None? && s.deferred.None? ==> IsTerminal(s.record)
    case Stopped => true
  }

  predicate AtWork(pc: PC) {
    Begins(pc) || Resets(pc) || pc.Finish?
  }

  predicate Inv(o: Origin, s: Site) {
    && Consistent(o, s) && Placed(o, s)
    && (AtWork(s.pc) ==> s.record.Running? && s.deferred.None?)
    && (!s.stored ==> IsTerminal(s.record))
  }

  lemma InitialIsConsistent(o: Origin)
    ensures Inv(o, Initial(o))
  {
  }

  lemma BeginKeeps(o: Origin, s: Site, ch: Choice)
    requires Lawful(o) && Inv(o, s) && Begins(s.pc)
    ensures Inv(o, Begin(o, s, ch))
  {
  }

  lemma DownAndUpKeep(o: Origin, s: Site, ch: Choice)
    requires Lawful(o) && Inv(o, s) && (s.pc.Down? || s.pc.AfterDown? || s.pc.Up?)
    ensures Inv(o, Reset(o, s, ch))
  {
  }

  lemma VerifyingKeeps(o: Origin, s: Site, ch: Choice)
    requires Lawful(o) && Inv(o, s) && (s.pc.Verify? || s.pc.Reconcile? || s.pc.ClearRepair?)
    ensures Inv(o, Reset(o, s, ch))
  {
  }

  lemma ReloadingKeeps(o: Origin, s: Site, ch: Choice)
    requires Lawful(o) && Inv(o, s) && (s.pc.Reload? || s.pc.VerifyShared? || s.pc.MarkRepair?)
    ensures Inv(o, Reset(o, s, ch))
  {
  }

  lemma ResetKeeps(o: Origin, s: Site, ch: Choice)
    requires Lawful(o) && Inv(o, s) && Resets(s.pc)
    ensures Inv(o, Reset(o, s, ch))
  {
    if s.pc.Down? || s.pc.AfterDown? || s.pc.Up? { DownAndUpKeep(o, s, ch); }
    else if s.pc.Verify? || s.pc.Reconcile? || s.pc.ClearRepair? { VerifyingKeeps(o, s, ch); }
    else { ReloadingKeeps(o, s, ch); }
  }

  lemma FinishKeeps(o: Origin, s: Site, ch: Choice)
    requires Lawful(o) && Inv(o, s) && (s.pc.Finish?)
    ensures Inv(o, End(s, ch))
  {
  }

  lemma WorkerClearKeeps(o: Origin, s: Site, ch: Choice)
    requires Lawful(o) && Inv(o, s) && (s.pc.ClearJournal?)
    ensures Inv(o, End(s, ch))
  {
  }

  lemma EndKeeps(o: Origin, s: Site, ch: Choice)
    requires Lawful(o) && Inv(o, s) && Ends(s.pc)
    ensures Inv(o, End(s, ch))
  {
    if s.pc.Finish? { FinishKeeps(o, s, ch); }
    else { WorkerClearKeeps(o, s, ch); }
  }

  lemma LookupKeeps(o: Origin, s: Site, ch: Choice)
    requires Lawful(o) && Inv(o, s) && s.pc.Lookup?
    ensures Inv(o, Repair(o, s, ch))
  {
  }

  lemma RepairPatchKeeps(o: Origin, s: Site, ch: Choice)
    requires Lawful(o) && Inv(o, s) && s.pc.RepairPatch?
    ensures Inv(o, Repair(o, s, ch))
  {
  }

  lemma RepairStageKeeps(o: Origin, s: Site, ch: Choice)
    requires Lawful(o) && Inv(o, s) && s.pc.RepairStageEnv?
    ensures Inv(o, Repair(o, s, ch))
  {
  }

  lemma RepairSyncKeeps(o: Origin, s: Site, ch: Choice)
    requires Lawful(o) && Inv(o, s) && s.pc.RepairReconcile?
    ensures Inv(o, Repair(o, s, ch))
  {
  }

  lemma MarkFirstKeeps(o: Origin, s: Site, ch: Choice)
    requires Lawful(o) && Inv(o, s) && s.pc.MarkFirst?
    ensures Inv(o, Repair(o, s, ch))
  {
  }

  lemma StageDownKeeps(o: Origin, s: Site, ch: Choice)
    requires Lawful(o) && Inv(o, s) && s.pc.RepairStageDown?
    ensures Inv(o, Repair(o, s, ch))
  {
  }

  lemma RepairKeeps(o: Origin, s: Site, ch: Choice)
    requires Lawful(o) && Inv(o, s) && Repairs(s.pc)
    ensures Inv(o, Repair(o, s, ch))
  {
    match s.pc
    case Lookup => LookupKeeps(o, s, ch);
    case RepairPatch => RepairPatchKeeps(o, s, ch);
    case RepairStageEnv => RepairStageKeeps(o, s, ch);
    case RepairReconcile => RepairSyncKeeps(o, s, ch);
    case MarkFirst => MarkFirstKeeps(o, s, ch);
    case RepairStageDown => StageDownKeeps(o, s, ch);
  }

  lemma RepairDownKeeps(o: Origin, s: Site, ch: Choice)
    requires Lawful(o) && Inv(o, s) && s.pc.RepairDown?
    ensures Inv(o, Rebuild(o, s, ch))
  {
  }

  lemma RepairUpKeeps(o: Origin, s: Site, ch: Choice)
    requires Lawful(o) && Inv(o, s) && s.pc.RepairUp?
    ensures Inv(o, Rebuild(o, s, ch))
  {
  }

  lemma RepairVerifyKeeps(o: Origin, s: Site, ch: Choice)
    requires Lawful(o) && Inv(o, s) && s.pc.RepairVerify?
    ensures Inv(o, Rebuild(o, s, ch))
  {
  }

  lemma SyncAgainKeeps(o: Origin, s: Site, ch: Choice)
    requires Lawful(o) && Inv(o, s) && s.pc.RepairReconcileAgain?
    ensures Inv(o, Rebuild(o, s, ch))
  {
  }

  lemma RepairClearKeeps(o: Origin, s: Site, ch: Choice)
    requires Lawful(o) && Inv(o, s) && s.pc.RepairClear?
    ensures Inv(o, Rebuild(o, s, ch))
  {
  }

  lemma RepairReloadKeeps(o: Origin, s: Site, ch: Choice)
    requires Lawful(o) && Inv(o, s) && s.pc.RepairReload?
    ensures Inv(o, Rebuild(o, s, ch))
  {
  }

  lemma RepairSharedKeeps(o: Origin, s: Site, ch: Choice)
    requires Lawful(o) && Inv(o, s) && s.pc.RepairVerifyShared?
    ensures Inv(o, Rebuild(o, s, ch))
  {
  }

  lemma MarkAgainKeeps(o: Origin, s: Site, ch: Choice)
    requires Lawful(o) && Inv(o, s) && s.pc.MarkAgain?
    ensures Inv(o, Rebuild(o, s, ch))
  {
  }

  lemma RebuildKeeps(o: Origin, s: Site, ch: Choice)
    requires Lawful(o) && Inv(o, s) && Rebuilds(s.pc)
    ensures Inv(o, Rebuild(o, s, ch))
  {
    match s.pc
    case RepairDown => RepairDownKeeps(o, s, ch);
    case RepairUp => RepairUpKeeps(o, s, ch);
    case RepairVerify => RepairVerifyKeeps(o, s, ch);
    case RepairReconcileAgain => SyncAgainKeeps(o, s, ch);
    case RepairClear => RepairClearKeeps(o, s, ch);
    case RepairReload => RepairReloadKeeps(o, s, ch);
    case RepairVerifyShared => RepairSharedKeeps(o, s, ch);
    case MarkAgain => MarkAgainKeeps(o, s, ch);
  }

  lemma FailKeeps(o: Origin, s: Site, ch: Choice)
    requires Lawful(o) && Inv(o, s) && (s.pc.Fail?)
    ensures Inv(o, SettleStep(o, s, ch))
  {
  }

  lemma SettlingKeeps(o: Origin, s: Site, ch: Choice)
    requires Lawful(o) && Inv(o, s) && (s.pc.Settle?)
    ensures Inv(o, SettleStep(o, s, ch))
  {
  }

  lemma RepairRemoveKeeps(o: Origin, s: Site, ch: Choice)
    requires Lawful(o) && Inv(o, s) && (s.pc.RepairClearJournal?)
    ensures Inv(o, SettleStep(o, s, ch))
  {
  }

  lemma CheckEnvKeeps(o: Origin, s: Site, ch: Choice)
    requires Lawful(o) && Inv(o, s) && (s.pc.CheckEnv?)
    ensures Inv(o, SettleStep(o, s, ch))
  {
  }

  lemma CheckRuntimeKeeps(o: Origin, s: Site, ch: Choice)
    requires Lawful(o) && Inv(o, s) && (s.pc.CheckRuntime?)
    ensures Inv(o, SettleStep(o, s, ch))
  {
  }

  lemma CheckReconcileKeeps(o: Origin, s: Site, ch: Choice)
    requires Lawful(o) && Inv(o, s) && (s.pc.CheckReconcile?)
    ensures Inv(o, SettleStep(o, s, ch))
  {
  }

  lemma CheckClearKeeps(o: Origin, s: Site, ch: Choice)
    requires Lawful(o) && Inv(o, s) && (s.pc.CheckClear?)
    ensures Inv(o, SettleStep(o, s, ch))
  {
  }

  lemma CheckSharedKeeps(o: Origin, s: Site, ch: Choice)
    requires Lawful(o) && Inv(o, s) && (s.pc.CheckShared?)
    ensures Inv(o, SettleStep(o, s, ch))
  {
  }

  lemma SettleKeeps(o: Origin, s: Site, ch: Choice)
    requires Lawful(o) && Inv(o, s) && Settles(s.pc)
    ensures Inv(o, SettleStep(o, s, ch))
  {
    if s.pc.Fail? { FailKeeps(o, s, ch); }
    else if s.pc.Settle? { SettlingKeeps(o, s, ch); }
    else if s.pc.RepairClearJournal? { RepairRemoveKeeps(o, s, ch); }
    else if s.pc.CheckEnv? { CheckEnvKeeps(o, s, ch); }
    else if s.pc.CheckRuntime? { CheckRuntimeKeeps(o, s, ch); }
    else if s.pc.CheckReconcile? { CheckReconcileKeeps(o, s, ch); }
    else if s.pc.CheckClear? { CheckClearKeeps(o, s, ch); }
    else { CheckSharedKeeps(o, s, ch); }
  }

  lemma ApplyKeeps(o: Origin, s: Site, e: Event)
    requires Lawful(o) && Inv(o, s)
    ensures Inv(o, Apply(o, s, e))
  {
    if e.Act? {
      if Begins(s.pc) { BeginKeeps(o, s, e.ch); }
      else if Resets(s.pc) { ResetKeeps(o, s, e.ch); }
      else if Ends(s.pc) { EndKeeps(o, s, e.ch); }
      else if Repairs(s.pc) { RepairKeeps(o, s, e.ch); }
      else if Rebuilds(s.pc) { RebuildKeeps(o, s, e.ch); }
      else if Settles(s.pc) { SettleKeeps(o, s, e.ch); }
    } else if e.Restart? {
      RestartKeeps(o, s, e.outcome);
    } else if e.Flush? {
      FlushKeeps(o, s, e.outcome);
    } else if e.Expire? {
      ExpireKeeps(o, s);
    }
  }

  lemma RestartKeeps(o: Origin, s: Site, outcome: WriteOutcome)
    requires Inv(o, s)
    ensures Inv(o, Restarted(s, outcome))
  {
  }

  lemma FlushKeeps(o: Origin, s: Site, outcome: WriteOutcome)
    requires Inv(o, s)
    ensures Inv(o, Flushed(s, outcome))
  {
  }

  lemma ExpireKeeps(o: Origin, s: Site)
    requires Inv(o, s)
    ensures Inv(o, Expired(s))
  {
  }

  lemma {:induction false} RunKeeps(o: Origin, s: Site, events: seq<Event>)
    requires Lawful(o) && Inv(o, s)
    ensures Inv(o, Run(o, s, events))
    decreases |events|
  {
    if events != [] {
      ApplyKeeps(o, s, events[0]);
      RunKeeps(o, Apply(o, s, events[0]), events[1..]);
    }
  }

  // --------------------------------------------------------------- Theorems

  /** Whatever crashes, failures, repairs and restarts there were: once nobody is
      at work and no journal is left, either nothing has happened at all, or all
      of it has: env, entry and data are the target's and the record says so. */
  lemma ResetIsAllOrNothing(o: Origin, events: seq<Event>)
    requires Lawful(o)
    ensures var s := Run(o, Initial(o), events);
      && (s.journal.None? && (s.pc.Idle? || s.pc.Stopped?) ==> Untouched(o, s) || Converged(o, s))
      && (s.journal.None? && s.pc.Idle? && s.deferred.None? ==> IsTerminal(s.record))
  {
    InitialIsConsistent(o);
    RunKeeps(o, Initial(o), events);
  }

  /** Whichever step removes the journal, the worker's or a repair's, leaves
      exactly the target state. */
  lemma ClearingMeansConverged(o: Origin, s: Site, ch: Choice)
    requires Lawful(o) && Inv(o, s) && s.journal.Some? && Step(o, s, ch).journal.None?
    ensures Converged(o, Step(o, s, ch))
  {
    ApplyKeeps(o, s, Act(ch));
    OnlyClearingRemoves(o, s, ch);
  }

  lemma WorkNeverRemoves(o: Origin, s: Site, ch: Choice)
    requires s.journal.Some?
    ensures Begins(s.pc) ==> Begin(o, s, ch).journal.Some?
    ensures Resets(s.pc) ==> Reset(o, s, ch).journal.Some?
    ensures s.pc.Finish? ==> End(s, ch).journal.Some?
  {
  }

  lemma RepairNeverRemoves(o: Origin, s: Site, ch: Choice)
    requires s.journal.Some?
    ensures Repairs(s.pc) ==> Repair(o, s, ch).journal.Some?
    ensures Rebuilds(s.pc) ==> Rebuild(o, s, ch).journal.Some?
  {
  }

  lemma SettlingNeverRemoves(o: Origin, s: Site, ch: Choice)
    requires s.journal.Some? && Settles(s.pc) && !s.pc.RepairClearJournal?
    ensures SettleStep(o, s, ch).journal.Some?
  {
  }

  lemma OnlyClearingRemoves(o: Origin, s: Site, ch: Choice)
    requires s.journal.Some? && Step(o, s, ch).journal.None?
    ensures s.pc.ClearJournal? || s.pc.RepairClearJournal?
  {
    WorkNeverRemoves(o, s, ch);
    RepairNeverRemoves(o, s, ch);
    if Settles(s.pc) && !s.pc.RepairClearJournal? { SettlingNeverRemoves(o, s, ch); }
  }

  /** In every state, crashed in the middle or not, a raised repair flag has a
      journal on disk to drive the repair. */
  lemma RepairIsNeverStranded(o: Origin, events: seq<Event>)
    requires Lawful(o)
    ensures var s := Run(o, Initial(o), events); s.repair ==> s.journal.Some?
  {
    InitialIsConsistent(o);
    RunKeeps(o, Initial(o), events);
  }

  /** Data is only ever taken down with the target env in place, the entry
      derived from it and the journal at its last stage. */
  lemma DownIsJournaledFirst(o: Origin, events: seq<Event>)
    requires Lawful(o)
    ensures var s := Run(o, Initial(o), events);
      s.pc.Down? || s.pc.RepairDown? ==>
        s.env == Target(o) && s.entry == TargetEntry(o) && s.journal == Some(DownPending)
  {
    InitialIsConsistent(o);
    RunKeeps(o, Initial(o), events);
  }

  // ------------------------------------------- When every call succeeds

  const GOOD := Choice(true, Persisted, false)

  function Acts(o: Origin, s: Site, n: nat): Site
    decreases n
  {
    if n == 0 then s else Acts(o, Step(o, s, GOOD), n - 1)
  }

  lemma {:induction false} ActsCompose(o: Origin, s: Site, m: nat, n: nat)
    ensures Acts(o, s, m + n) == Acts(o, Acts(o, s, m), n)
    decreases n
  {
    if n > 0 {
      ActsCompose(o, s, m, n - 1);
      LastStep(o, s, m + n);
      LastStep(o, Acts(o, s, m), n);
    }
  }

  lemma {:induction false} LastStep(o: Origin, s: Site, n: nat)
    requires n > 0
    ensures Acts(o, s, n) == Step(o, Acts(o, s, n - 1), GOOD)
    decreases n
  {
    if n > 1 { LastStep(o, Step(o, s, GOOD), n - 1); }
  }

  lemma {:induction false} IdleStays(o: Origin, s: Site, n: nat)
    requires s.pc.Idle?
    ensures Acts(o, s, n) == s
    decreases n
  {
    if n > 0 { IdleStays(o, s, n - 1); }
  }

  lemma GoodBegin(o: Origin, s: Site)
    requires s.pc.Validate?
    ensures Acts(o, s, 7) ==
      s.(env := o.patch(s.env), entry := o.derive(o.patch(s.env), s.entry), journal := Some(DownPending), pc := Down)
  {
    var a := Step(o, s, GOOD);
    var b := Step(o, a, GOOD);
    var c := Step(o, b, GOOD);
    var d := Step(o, c, GOOD);
    assert d == s.(env := o.patch(s.env), journal := Some(EnvUpdated), pc := SyncEntry);
    GoodBeginRest(o, d);
    assert Acts(o, s, 7) == Acts(o, a, 6) == Acts(o, b, 5) == Acts(o, c, 4) == Acts(o, d, 3);
  }

  lemma GoodBeginRest(o: Origin, s: Site)
    requires s.pc.SyncEntry?
    ensures Acts(o, s, 3) == s.(entry := o.derive(s.env, s.entry), journal := Some(DownPending), pc := Down)
  {
    var a := Step(o, s, GOOD);
    var b := Step(o, a, GOOD);
    var c := Step(o, b, GOOD);
    assert Acts(o, s, 3) == Acts(o, a, 2) == Acts(o, b, 1) == Acts(o, c, 0);
  }

  lemma GoodReset(o: Origin, s: Site)
    requires s.pc.Down?
    ensures Acts(o, s, 8) ==
      s.(volumes := Some(s.env), entry := o.derive(s.env, s.entry), repair := false, pc := Finish(true))
  {
    var a := Step(o, s, GOOD);
    var b := Step(o, a, GOOD);
    var c := Step(o, b, GOOD);
    var d := Step(o, c, GOOD);
    assert d == s.(volumes := Some(s.env), pc := Reconcile);
    GoodResetRest(o, d);
    assert Acts(o, s, 8) == Acts(o, a, 7) == Acts(o, b, 6) == Acts(o, c, 5) == Acts(o, d, 4);
  }

  lemma GoodResetRest(o: Origin, s: Site)
    requires s.pc.Reconcile?
    ensures Acts(o, s, 4) == s.(entry := o.derive(s.env, s.entry), repair := false, pc := Finish(true))
  {
    var a := Step(o, s, GOOD);
    var b := Step(o, a, GOOD);
    var c := Step(o, b, GOOD);
    var d := Step(o, c, GOOD);
    assert Acts(o, s, 4) == Acts(o, a, 3) == Acts(o, b, 2) == Acts(o, c, 1) == Acts(o, d, 0);
  }

  lemma GoodWorkerReachesTheEnd(o: Origin)
    requires Lawful(o)
    ensures Acts(o, Initial(o), 15) ==
      Site(Target(o), TargetEntry(o), false, Some(Target(o)), Some(DownPending), Running, true, None, Finish(true))
  {
    GoodBegin(o, Initial(o));
    GoodReset(o, Acts(o, Initial(o), 7));
    ActsCompose(o, Initial(o), 7, 8);
  }

  lemma RecordsSuccess(o: Origin, s: Site)
    requires s.pc == Finish(true) && s.stored && s.record.Running?
    ensures Acts(o, s, 1) == s.(record := Succeeded, deferred := None, pc := ClearJournal)
  {
    assert Acts(o, s, 1) == Acts(o, Step(o, s, GOOD), 0);
  }

  lemma RemovesTheJournal(o: Origin, s: Site)
    requires s.pc.ClearJournal?
    ensures Acts(o, s, 1) == s.(journal := None, pc := Idle)
  {
    assert Acts(o, s, 1) == Acts(o, Step(o, s, GOOD), 0);
  }

  /** A reset in which nothing goes wrong ends in the target state: the one every
      interrupted and repaired reset ends in too. */
  lemma UninterruptedConverges(o: Origin)
    requires Lawful(o)
    ensures Acts(o, Initial(o), 17).pc.Idle? && Converged(o, Acts(o, Initial(o), 17))
  {
    GoodWorkerReachesTheEnd(o);
    ActsCompose(o, Initial(o), 15, 2);
    var a := Acts(o, Initial(o), 15);
    ActsCompose(o, a, 1, 1);
    RecordsSuccess(o, a);
    RemovesTheJournal(o, Acts(o, a, 1));
  }

  // -------------------------------------------------- When a repair succeeds

  function BeforeDown(o: Origin, s: Site): Site {
    s.(env := o.patch(s.env), entry := o.derive(o.patch(s.env), s.entry), repair := true, journal := Some(DownPending),
       pc := RepairDown)
  }

  lemma GoodRepairBegins(o: Origin, s: Site)
    requires s.pc.RepairPatch? && s.journal.Some?
    ensures Acts(o, s, if s.journal == Some(Prepared) then 5 else 4) == BeforeDown(o, s)
  {
    var a := Step(o, s, GOOD);
    if s.journal == Some(Prepared) {
      var b := Step(o, a, GOOD);
      GoodRepairMarks(o, b);
      assert Acts(o, s, 5) == Acts(o, a, 4) == Acts(o, b, 3);
    } else {
      GoodRepairMarks(o, a);
      assert Acts(o, s, 4) == Acts(o, a, 3);
    }
  }

  lemma GoodRepairMarks(o: Origin, s: Site)
    requires s.pc.RepairReconcile?
    ensures Acts(o, s, 3) ==
      s.(entry := o.derive(s.env, s.entry), repair := true, journal := Some(DownPending), pc := RepairDown)
  {
    var a := Step(o, s, GOOD);
    var b := Step(o, a, GOOD);
    var c := Step(o, b, GOOD);
    assert Acts(o, s, 3) == Acts(o, a, 2) == Acts(o, b, 1) == Acts(o, c, 0);
  }

  lemma GoodRebuild(o: Origin, s: Site)
    requires s.pc.RepairDown?
    ensures Acts(o, s, 7) ==
        s.(volumes := Some(s.env), entry := o.derive(s.env, s.entry), repair := false, pc := Settle)
  {
    var a := Step(o, s, GOOD);
    var b := Step(o, a, GOOD);
    var c := Step(o, b, GOOD);
    assert c == s.(volumes := Some(s.env), pc := RepairReconcileAgain);
    GoodRebuildRest(o, c);
    assert Acts(o, s, 7) == Acts(o, a, 6) == Acts(o, b, 5) == Acts(o, c, 4);
  }

  lemma GoodRebuildSyncs(o: Origin, s: Site)
    requires s.pc.RepairReconcileAgain?
    ensures Acts(o, s, 2) == s.(entry := o.derive(s.env, s.entry), repair := false, pc := RepairReload)
  {
    var a := Step(o, s, GOOD);
    assert Acts(o, s, 2) == Acts(o, a, 1) == Acts(o, Step(o, a, GOOD), 0);
  }

  lemma GoodRebuildReloads(o: Origin, s: Site)
    requires s.pc.RepairReload? && !s.repair
    ensures Acts(o, s, 2) == s.(pc := Settle)
  {
    var a := Step(o, s, GOOD);
    assert Acts(o, s, 2) == Acts(o, a, 1) == Acts(o, Step(o, a, GOOD), 0);
  }

  lemma GoodRebuildRest(o: Origin, s: Site)
    requires s.pc.RepairReconcileAgain?
    ensures Acts(o, s, 4) == s.(entry := o.derive(s.env, s.entry), repair := false, pc := Settle)
  {
    GoodRebuildSyncs(o, s);
    GoodRebuildReloads(o, Acts(o, s, 2));
    ActsCompose(o, s, 2, 2);
  }

  lemma GoodSettle(o: Origin, s: Site)
    requires s.pc.Settle? && s.stored && (s.record.Succeeded? || !IsTerminal(s.record))
    ensures var t := Acts(o, s, 2);
      t.env == s.env && t.entry == s.entry && t.repair == s.repair && t.volumes == s.volumes
      && t.journal.None? && t.record.Succeeded? && t.pc.Idle?
  {
    var a := Step(o, s, GOOD);
    assert Acts(o, s, 2) == Acts(o, a, 1) == Acts(o, Step(o, a, GOOD), 0);
  }

  lemma GoodCheck(o: Origin, s: Site)
    requires s.pc.CheckEnv? && o.carries(s.env) && Healthy(o, s)
    ensures Acts(o, s, 2) == s.(pc := CheckReconcile)
  {
    var a := Step(o, s, GOOD);
    assert Acts(o, s, 2) == Acts(o, a, 1) == Acts(o, Step(o, a, GOOD), 0);
  }

  lemma GoodCheckSyncs(o: Origin, s: Site)
    requires s.pc.CheckReconcile?
    ensures Acts(o, s, 2) == s.(entry := o.derive(s.env, s.entry), repair := false, pc := CheckShared)
  {
    var a := Step(o, s, GOOD);
    assert Acts(o, s, 2) == Acts(o, a, 1) == Acts(o, Step(o, a, GOOD), 0);
  }

  lemma GoodCheckClears(o: Origin, s: Site)
    requires s.pc.CheckShared? && !s.repair
    ensures Acts(o, s, 2) == s.(journal := None, pc := Idle)
  {
    var a := Step(o, s, GOOD);
    assert Acts(o, s, 2) == Acts(o, a, 1) == Acts(o, Step(o, a, GOOD), 0);
  }

  /** A repair in which every call succeeds; the steps left over change nothing. */
  function GoodRepair(o: Origin, s: Site): Site {
    Acts(o, Apply(o, s, StartRepair), 20)
  }

  lemma GoodRepairRuns(o: Origin, s: Site)
    requires s.pc.RepairPatch? && s.journal.Some? && s.stored && !IsTerminal(s.record)
    ensures var t := Acts(o, s, 19); var env := o.patch(s.env);
      t.env == env && t.entry == o.derive(env, o.derive(env, s.entry)) && !t.repair && t.volumes == Some(env)
      && t.journal.None? && t.record.Succeeded?
  {
    var n := if s.journal == Some(Prepared) then 5 else 4;
    var b := BeforeDown(o, s);
    GoodRepairBegins(o, s);
    GoodRebuild(o, b);
    var c := Acts(o, b, 7);
    GoodSettle(o, c);
    IdleStays(o, Acts(o, c, 2), 10 - n);
    ActsCompose(o, s, n, 19 - n);
    ActsCompose(o, b, 7, 12 - n);
    ActsCompose(o, c, 2, 10 - n);
  }

  lemma LookupGoesOn(o: Origin, s: Site)
    requires s.pc.Idle? && s.journal.Some? && s.stored
    ensures GoodRepair(o, s) == Acts(o, s.(pc := if s.record.Succeeded? then CheckEnv else RepairPatch), 19)
  {
    assert Step(o, Apply(o, s, StartRepair), GOOD) == s.(pc := if s.record.Succeeded? then CheckEnv else RepairPatch);
  }

  lemma GoodRepairOfUnfinished(o: Origin, s: Site)
    requires Lawful(o) && Inv(o, s) && s.pc.Idle? && s.journal.Some? && !s.record.Succeeded?
    ensures Converged(o, GoodRepair(o, s))
  {
    LookupGoesOn(o, s);
    GoodRepairRuns(o, s.(pc := RepairPatch));
  }

  /** What a repair that only looks does, by what it sees. */
  lemma GoodLookPasses(o: Origin, s: Site)
    requires s.pc.CheckEnv? && o.carries(s.env) && Healthy(o, s)
    ensures Acts(o, s, 19) == s.(entry := o.derive(s.env, s.entry), repair := false, journal := None, pc := Idle)
  {
    var a := s.(pc := CheckReconcile);
    var b := a.(entry := o.derive(s.env, s.entry), repair := false, pc := CheckShared);
    var c := b.(journal := None, pc := Idle);
    GoodCheck(o, s);
    GoodCheckSyncs(o, a);
    GoodCheckClears(o, b);
    IdleStays(o, c, 13);
    ActsCompose(o, s, 2, 17);
    ActsCompose(o, a, 2, 15);
    ActsCompose(o, b, 2, 13);
  }

  lemma GoodLookFindsNoStack(o: Origin, s: Site)
    requires s.pc.CheckEnv? && o.carries(s.env) && !Healthy(o, s)
    ensures Acts(o, s, 19) == s.(pc := Idle)
  {
    var a := Step(o, s, GOOD);
    assert a == s.(pc := CheckRuntime);
    var b := Step(o, a, GOOD);
    assert b == s.(pc := Idle);
    assert Acts(o, s, 19) == Acts(o, a, 18) == Acts(o, b, 17);
    IdleStays(o, b, 17);
  }

  lemma GoodLookFindsNoUpdates(o: Origin, s: Site)
    requires s.pc.CheckEnv? && !o.carries(s.env)
    ensures Acts(o, s, 19) == s.(pc := Idle)
  {
    var a := Step(o, s, GOOD);
    assert a == s.(pc := Idle);
    assert Acts(o, s, 19) == Acts(o, a, 18);
    IdleStays(o, a, 18);
  }

  lemma GoodRepairOfSucceeded(o: Origin, s: Site)
    requires Lawful(o) && Inv(o, s) && s.pc.Idle? && s.journal.Some? && s.record.Succeeded? && s.stored
    ensures Converged(o, GoodRepair(o, s)) <==> s.volumes.Some? && o.carries(Target(o))
    ensures !Converged(o, GoodRepair(o, s)) ==> GoodRepair(o, s) == s
  {
    LookupGoesOn(o, s);
    var a := s.(pc := CheckEnv);
    if !o.carries(a.env) { GoodLookFindsNoUpdates(o, a); }
    else if !Healthy(o, a) { GoodLookFindsNoStack(o, a); }
    else { GoodLookPasses(o, a); }
  }

  lemma GoodRepairFindsNoRecord(o: Origin, s: Site)
    requires s.pc.Idle? && s.journal.Some? && !s.stored
    ensures GoodRepair(o, s) == s
  {
    assert Step(o, s.(pc := Lookup), GOOD) == s;
    IdleStays(o, s, 19);
  }

  /** When does a repair that meets no failure finish the reset? Exactly when the
      store still has the operation's record and, if that says succeeded, the
      data is there and the env carries every update: such a repair only looks. */
  lemma GoodRepairConvergesIff(o: Origin, s: Site)
    requires Lawful(o) && Inv(o, s) && s.pc.Idle? && s.journal.Some?
    ensures Converged(o, GoodRepair(o, s)) <==>
            s.stored && (s.record.Succeeded? ==> s.volumes.Some? && o.carries(Target(o)))
  {
    if !s.stored { GoodRepairFindsNoRecord(o, s); }
    else if s.record.Succeeded? { GoodRepairOfSucceeded(o, s); }
    else { GoodRepairOfUnfinished(o, s); }
  }

  // --------------------------------------------- A journal without its record

  /** The journal's record is gone, and no repair is past looking for it. */
  predicate Stranded(s: Site) {
    s.journal.Some? && !s.stored && IsTerminal(s.record) && (s.pc.Idle? || s.pc.Lookup? || s.pc.Stopped?)
  }

  /** Everything but who is looking, and what waits to be written. */
  predicate Alike(s: Site, t: Site) {
    t == s.(pc := t.pc, deferred := t.deferred)
  }

  lemma StrandedStep(o: Origin, s: Site, e: Event)
    requires Stranded(s)
    ensures Stranded(Apply(o, s, e)) && Alike(s, Apply(o, s, e))
  {
  }

  /** Once retention has dropped the record, the journal stays for good: every
      repair and every restart, however often and whatever succeeds, leaves env,
      entry, data, record and journal as they are. */
  lemma {:induction false} PrunedRecordStrandsTheJournal(o: Origin, s: Site, events: seq<Event>)
    requires Stranded(s)
    ensures Stranded(Run(o, s, events)) && Alike(s, Run(o, s, events))
    decreases |events|
  {
    if events != [] {
      StrandedStep(o, s, events[0]);
      PrunedRecordStrandsTheJournal(o, Apply(o, s, events[0]), events[1..]);
    }
  }

  // ------------------------------------------------- A repair that is too late

  function Goods(n: nat): seq<Event> {
    seq(n, _ => Act(GOOD))
  }

  lemma {:induction false} RunsGoods(o: Origin, s: Site, n: nat, rest: seq<Event>)
    ensures Run(o, s, Goods(n) + rest) == Run(o, Acts(o, s, n), rest)
    decreases n
  {
    if n == 0 {
      assert Goods(0) + rest == rest;
    } else {
      assert (Goods(n) + rest)[1..] == Goods(n - 1) + rest;
      RunsGoods(o, Step(o, s, GOOD), n - 1, rest);
    }
  }

  const FAILS := Choice(false, NotCommitted, false)

  /** The worker finishes but its success is not written; a repair in the same
      process resets again; a retry of the request writes the deferred success
      while the repair has the stack down; then the repair fails. */
  function TooLate(): seq<Event> {
    Goods(15) + ([Act(GOOD.(outcome := NotCommitted)),
                  StartRepair] + (Goods(6) + [Flush(Persisted), Act(FAILS), Act(GOOD), Act(GOOD)]))
  }

  lemma UnwrittenSuccess(o: Origin, s: Site, rest: seq<Event>)
    requires s.pc == Finish(true) && s.stored && s.record.Running? && s.journal.Some?
    ensures Run(o, s, [Act(GOOD.(outcome := NotCommitted)), StartRepair] + rest) ==
            Run(o, s.(deferred := Some(Succeeded), pc := Lookup), rest)
  {
    var finish := Act(GOOD.(outcome := NotCommitted));
    var events := [finish, StartRepair] + rest;
    var a := Apply(o, s, finish);
    assert a == s.(deferred := Some(Succeeded), pc := Idle);
    assert events[1..] == [StartRepair] + rest;
    assert ([StartRepair] + rest)[1..] == rest;
    assert Run(o, s, events) == Run(o, a, [StartRepair] + rest);
  }

  lemma TooLateBegins(o: Origin)
    requires Lawful(o)
    ensures Run(o, Initial(o), TooLate()) ==
      Run(o, Site(Target(o), TargetEntry(o), false, Some(Target(o)), Some(DownPending), Running, true, Some(Succeeded),
                  Lookup),
          Goods(6) + [Flush(Persisted), Act(FAILS), Act(GOOD), Act(GOOD)])
  {
    var rest := Goods(6) + [Flush(Persisted), Act(FAILS), Act(GOOD), Act(GOOD)];
    RunsGoods(o, Initial(o), 15, [Act(GOOD.(outcome := NotCommitted)), StartRepair] + rest);
    GoodWorkerReachesTheEnd(o);
    UnwrittenSuccess(o, Acts(o, Initial(o), 15), rest);
  }

  lemma TooLateRepairs(o: Origin, s: Site)
    requires s.pc.Lookup? && s.stored && s.record.Running? && s.journal == Some(DownPending)
    ensures var t := BeforeDown(o, s.(pc := RepairPatch)); Acts(o, s, 6) == t.(volumes := None, pc := RepairUp)
  {
    var a := s.(pc := RepairPatch);
    var b := BeforeDown(o, a);
    assert Acts(o, s, 1) == Acts(o, a, 0) == a;
    GoodRepairBegins(o, a);
    GoodDown(o, b);
    ActsCompose(o, a, 4, 1);
    ActsCompose(o, s, 1, 5);
  }

  lemma GoodDown(o: Origin, s: Site)
    requires s.pc.RepairDown?
    ensures Acts(o, s, 1) == s.(volumes := None, pc := RepairUp)
  {
    assert Acts(o, s, 1) == Acts(o, Step(o, s, GOOD), 0);
  }

  lemma UpFails(o: Origin, s: Site, rest: seq<Event>)
    requires s.pc.RepairUp? && s.stored && s.record.Running? && s.deferred == Some(Succeeded)
    ensures Run(o, s, [Flush(Persisted), Act(FAILS)] + rest) ==
        Run(o, s.(record := Succeeded, deferred := None, pc := MarkAgain), rest)
  {
    var a := s.(record := Succeeded, deferred := None);
    assert Apply(o, s, Flush(Persisted)) == a && Apply(o, a, Act(FAILS)) == a.(pc := MarkAgain);
    assert ([Flush(Persisted), Act(FAILS)] + rest)[1..] == [Act(FAILS)] + rest && ([Act(FAILS)] + rest)[1..] == rest;
    assert Run(o, a, [Act(FAILS)] + rest) == Run(o, a.(pc := MarkAgain), rest);
  }

  lemma RepairGivesUp(o: Origin, s: Site)
    requires s.pc.MarkAgain? && s.record.Succeeded?
    ensures Run(o, s, [Act(GOOD), Act(GOOD)]) == s.(repair := true, pc := Idle)
  {
    var a := s.(repair := true, pc := Fail);
    assert Apply(o, s, Act(GOOD)) == a && Apply(o, a, Act(GOOD)) == a.(pc := Idle);
    assert [Act(GOOD), Act(GOOD)][1..] == [Act(GOOD)];
    assert Run(o, a, [Act(GOOD)]) == Run(o, a.(pc := Idle), []);
  }

  lemma TooLateEnds(o: Origin, s: Site)
    requires s.pc.RepairUp? && s.stored && s.record.Running? && s.deferred == Some(Succeeded)
    ensures var t := Run(o, s, [Flush(Persisted), Act(FAILS), Act(GOOD), Act(GOOD)]);
      t == s.(record := Succeeded, deferred := None, repair := true, pc := Idle)
  {
    UpFails(o, s, [Act(GOOD), Act(GOOD)]);
    RepairGivesUp(o, s.(record := Succeeded, deferred := None, pc := MarkAgain));
    assert [Flush(Persisted), Act(FAILS)] + [Act(GOOD), Act(GOOD)] ==
        [Flush(Persisted), Act(FAILS), Act(GOOD), Act(GOOD)];
  }

  /** The reset succeeds and is recorded, the journal cannot be removed, and the
      record outlives its retention before anybody repairs. */
  function TooOld(): seq<Event> {
    Goods(16) + [Act(GOOD.(outcome := NotCommitted)), Expire]
  }

  lemma GrowsTooOld(o: Origin, s: Site)
    requires s.pc.ClearJournal? && s.journal.Some? && s.stored && s.record.Succeeded?
    ensures Run(o, s, [Act(GOOD.(outcome := NotCommitted)), Expire]) == s.(stored := false, pc := Idle)
  {
    var unremoved := Act(GOOD.(outcome := NotCommitted));
    var a := Apply(o, s, unremoved);
    assert a == s.(pc := Idle);
    assert [unremoved, Expire][1..] == [Expire];
    assert Run(o, s, [unremoved, Expire]) == Run(o, a, [Expire]) == Run(o, Expired(a), []);
  }

  lemma GoodWorkerRecordsSuccess(o: Origin)
    requires Lawful(o)
    ensures Acts(o, Initial(o), 16) ==
      Site(Target(o), TargetEntry(o), false, Some(Target(o)), Some(DownPending), Succeeded, true, None, ClearJournal)
  {
    GoodWorkerReachesTheEnd(o);
    ActsCompose(o, Initial(o), 15, 1);
    RecordsSuccess(o, Acts(o, Initial(o), 15));
  }

  /** A reset that went well ends there: everything is as asked for, and the
      journal can never be repaired away. */
  lemma SuccessCanBeStranded(o: Origin)
    requires Lawful(o)
    ensures var s := Run(o, Initial(o), TooOld()); Stranded(s) && Achieved(o, s) && s.record.Succeeded?
  {
    var last := [Act(GOOD.(outcome := NotCommitted)), Expire];
    var a := Site(Target(o), TargetEntry(o), false, Some(Target(o)), Some(DownPending), Succeeded, true, None,
                  ClearJournal);
    assert Run(o, Initial(o), Goods(16) + last) == Run(o, a, last) by {
      RunsGoods(o, Initial(o), 16, last);
      GoodWorkerRecordsSuccess(o);
    }
    GrowsTooOld(o, a);
  }

  /** That state is reachable, and no repair gets out of it: the operation reads
      succeeded, the stack has no data, and repairs only look. */
  lemma FlushDuringRepairStrands(o: Origin)
    requires Lawful(o)
    ensures var s := Run(o, Initial(o), TooLate());
      s.pc.Idle? && s.journal.Some? && s.record.Succeeded? && s.volumes.None? && s.repair && GoodRepair(o, s) == s
  {
    var s := Site(Target(o), TargetEntry(o), false, Some(Target(o)), Some(DownPending), Running, true, Some(Succeeded),
                  Lookup);
    var last := [Flush(Persisted), Act(FAILS), Act(GOOD), Act(GOOD)];
    TooLateBegins(o);
    RunsGoods(o, s, 6, last);
    TooLateRepairs(o, s);
    TooLateEnds(o, Acts(o, s, 6));
    InitialIsConsistent(o);
    RunKeeps(o, Initial(o), TooLate());
    GoodRepairOfSucceeded(o, Run(o, Initial(o), TooLate()));
  }

  // ---------------------------------------------- The deployer's own patching

  predicate Carries(env: Env, updates: map<string, string>) {
    forall k :: k in updates ==> EnvPatch.Lookup(Values(env), k) == Some(updates[k])
  }

  /** A reset of server `id` that writes `updates`. */
  ghost function ResetOf(env: Env, entry: Entry, volumes: Option<Env>, updates: map<string, string>, id: string,
                         urls: Urls): Origin {
    Origin(env, entry, volumes,
           e => Patched(e, updates),
           (e, x) => EntryFromEnv(id, Values(e), x, urls),
           e => (Get(Values(e), "SCENARIO_CODE"), ParseGeneration(Get(Values(e), "SERVER_GENERATION"))),
           e => Carries(e, updates))
  }

  /** The machine keeps the repair flag beside the entry: put together they are
      the registry's entry, and the machine's `Sync` is that entry's derivation. */
  function RegistryEntry(s: Site): Entry {
    s.entry.(repairRequired := s.repair)
  }

  lemma SyncDerivesTheEntry(env: Env, entry: Entry, volumes: Option<Env>, updates: map<string, string>, id: string,
                            urls: Urls,
                            s: Site, ch: Choice, next: PC, failed: PC)
    ensures var o := ResetOf(env, entry, volumes, updates, id, urls);
      RegistryEntry(Sync(o, s, ch, next, failed)) ==
        if ch.ok then EntryFromEnv(id, Values(s.env), RegistryEntry(s), urls) else RegistryEntry(s)
  {
    DerivingIsStable(id, Values(s.env), s.entry, urls, s.repair);
    var o := ResetOf(env, entry, volumes, updates, id, urls);
    assert o.derive(s.env, s.entry) == EntryFromEnv(id, Values(s.env), s.entry, urls);
  }

  /** The env patch and the derived entry may be done twice, so everything above
      holds of the deployer's reset; the env it ends with carries every update
      exactly when no updated key was assigned twice, to no avail, before. */
  lemma ResetsAreLawful(env: Env, entry: Entry, volumes: Option<Env>, updates: map<string, string>, id: string,
                        urls: Urls)
    ensures var o := ResetOf(env, entry, volumes, updates, id, urls);
      && Lawful(o)
      && (o.carries(Target(o)) <==>
            forall k :: k in updates ==> AtMostOnce(env, k) || EnvPatch.Lookup(Values(env), k) == Some(updates[k]))
  {
    var o := ResetOf(env, entry, volumes, updates, id, urls);
    PatchTwiceIsOnce(env, updates);
    DerivingIsStable(id, Values(Target(o)), entry, urls, false);
    forall k | k in updates
      ensures EnvPatch.Lookup(Values(Target(o)), k) == Some(updates[k]) <==>
              AtMostOnce(env, k) || EnvPatch.Lookup(Values(env), k) == Some(updates[k])
    {
      PatchedValue(env, updates, k);
    }
  }
}
