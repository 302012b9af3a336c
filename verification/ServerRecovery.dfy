/** Creating and closing a server under crashes: each leaves everything or
    nothing, after any failures, repairs and restarts. */
module ServerRecovery {
  import opened Lifecycle
  import L = Ledger

  // ------------------------------------------------------------------ State

  /** A registry entry that was there before, or one written for this server. */
  datatype EntryState = Absent | Old | New

  datatype PC =
    // the creating worker
    | CheckEnv | WriteCreateJournal | WriteEnv | Unwrite | Written | AddEntry | UpNew | ReloadNew(up: bool)
    // the closing worker
    | WriteCloseJournal | AdvanceClose | DownOld | RemoveEnv | RemoveEntry | ReloadOld
    // either
    | Finish(ok: bool) | ClearJournal
    // a repair
    | Lookup | LookAround | Cancel | RepairEntry | RepairUp | RepairReloadNew
    | RepairDown | RepairRemoveEnv | RepairRemoveEntry | RepairReloadOld
    | Settle | Fail | Postcondition | RepairClearJournal
    | Idle | Stopped

  /** `env` and `stack`: the server's env file, and containers with its data;
      `record` the operation's status, or the last it had when `stored` no longer
      holds. */
  datatype Site = Site(
    env: bool,
    entry: EntryState,
    stack: bool,
    journal: bool,
    record: Status,
    stored: bool,
    deferred: Option<Status>,
    pc: PC)

  datatype Origin = Origin(closing: bool, env: bool, entry: EntryState, stack: bool)

  datatype Choice = Choice(ok: bool, outcome: WriteOutcome, effect: bool)

  datatype Event =
    | Act(ch: Choice) | StartRepair | Flush(outcome: WriteOutcome) | Restart(outcome: WriteOutcome) | Expire

  /** A close is admitted for a registered server with its env; a create is
      refused when the env exists, but looks neither for an entry nor for a stack
      left over from before. */
  predicate Admitted(o: Origin) {
    if o.closing then o.env && o.entry.Old? else !o.entry.New?
  }

  function Initial(o: Origin): Site {
    Site(o.env, o.entry, o.stack, false, Running, true, None, if o.closing then WriteCloseJournal else CheckEnv)
  }

  // ------------------------------------------------------------------ Steps

  function If(s: Site, ok: bool, next: PC, failed: PC): Site {
    s.(pc := if ok then next else failed)
  }

  function Journal(s: Site, ch: Choice, next: PC, failed: PC): Site {
    s.(journal := s.journal || Visible(ch.outcome), pc := if ch.outcome.Persisted? then next else failed)
  }

  function Remove(s: Site, ch: Choice, next: PC): Site {
    s.(journal := s.journal && !Visible(ch.outcome), pc := next)
  }

  function BringUp(s: Site, ch: Choice, next: PC): Site {
    s.(stack := s.stack || ch.ok || ch.effect, pc := next)
  }

  function TakeDown(s: Site, ch: Choice, next: PC, failed: PC): Site {
    s.(stack := s.stack && !ch.ok && !ch.effect, pc := if ch.ok then next else failed)
  }

  function DropEnv(s: Site, ch: Choice, next: PC, failed: PC): Site {
    s.(env := s.env && !ch.ok, pc := if ch.ok then next else failed)
  }

  function DropEntry(s: Site, ch: Choice, next: PC, failed: PC): Site {
    s.(entry := if ch.ok then Absent else s.entry, pc := if ch.ok then next else failed)
  }

  function WithLine(s: Site, line: L.Line): Site {
    s.(record := line.record, deferred := line.deferred)
  }

  function Move(s: Site, goal: Status, outcome: WriteOutcome): Site {
    WithLine(s, L.Moved(L.Line(s.record, s.deferred), goal, outcome))
  }

  predicate Shows(s: Site, goal: Status) {
    s.stored && s.record == goal
  }

  predicate Creates(pc: PC) {
    pc.CheckEnv? || pc.WriteCreateJournal? || pc.WriteEnv? || pc.Unwrite? || pc.Written? || pc.AddEntry?
    || pc.UpNew? || pc.ReloadNew?
  }

  function Create(s: Site, ch: Choice): Site
    requires Creates(s.pc)
  {
    match s.pc
    case CheckEnv => If(s, ch.ok && !s.env, WriteCreateJournal, Finish(false))
    case WriteCreateJournal => Journal(s, ch, WriteEnv, Finish(false))
    case WriteEnv => s.(env := s.env || ch.ok, pc := if ch.ok then Written else Unwrite)
    case Unwrite => Remove(s, ch, Finish(false))
    case Written => If(s, ch.ok, AddEntry, Finish(false))
    case AddEntry => s.(entry := if ch.ok then New else s.entry, pc := if ch.ok then UpNew else Finish(false))
    case UpNew => BringUp(s, ch, ReloadNew(ch.ok))
    case ReloadNew(up) => s.(pc := Finish(up && ch.ok))
  }

  predicate Closes(pc: PC) {
    pc.WriteCloseJournal? || pc.AdvanceClose? || pc.DownOld? || pc.RemoveEnv? || pc.RemoveEntry? || pc.ReloadOld?
  }

  function Close(s: Site, ch: Choice): Site
    requires Closes(s.pc)
  {
    match s.pc
    case WriteCloseJournal => Journal(s, ch, AdvanceClose, Finish(false))
    case AdvanceClose => Journal(s, ch, DownOld, Finish(false))
    case DownOld => TakeDown(s, ch, RemoveEnv, Finish(false))
    case RemoveEnv => DropEnv(s, ch, RemoveEntry, Finish(false))
    case RemoveEntry => DropEntry(s, ch, ReloadOld, Finish(false))
    case ReloadOld => s.(pc := Finish(ch.ok))
  }

  function End(s: Site, ch: Choice): Site
    requires s.pc.Finish? || s.pc.ClearJournal?
  {
    match s.pc
    case Finish(ok) =>
      var goal :=
        if ok && ch.ok then Succeeded
        else if s.journal then RecoveryRequired
        else if ch.effect then Cancelled else Failed;
      var t := Move(s, goal, ch.outcome);
      t.(pc := if goal.Succeeded? && Shows(t, Succeeded) then ClearJournal else Idle)
    case ClearJournal => Remove(s, ch, Idle)
  }

  predicate Repairs(pc: PC) {
    pc.Lookup? || pc.LookAround? || pc.RepairEntry? || pc.RepairUp? || pc.RepairReloadNew?
    || pc.RepairDown? || pc.RepairRemoveEnv? || pc.RepairRemoveEntry? || pc.RepairReloadOld?
  }

  /** A create is carried forward once its env exists; a close skips `down`
      once the env is gone. */
  function Repair(o: Origin, s: Site, ch: Choice): Site
    requires Repairs(s.pc)
  {
    match s.pc
    case Lookup =>
      s.(pc := if !ch.ok || !s.stored then Idle else if s.record.Succeeded? then Postcondition else LookAround)
    case LookAround =>
      s.(pc :=
        if !ch.ok then Fail
        else if o.closing then if s.env then RepairDown else RepairRemoveEntry
        else if !s.env then if s.entry.Absent? then Cancel else Fail
        else if s.entry.Absent? then RepairEntry else RepairUp)
    case RepairEntry => s.(entry := if ch.ok then New else s.entry, pc := if ch.ok then RepairUp else Fail)
    case RepairUp => BringUp(s, ch, if ch.ok then RepairReloadNew else Fail)
    case RepairReloadNew => If(s, ch.ok, Settle, Fail)
    case RepairDown => TakeDown(s, ch, RepairRemoveEnv, Fail)
    case RepairRemoveEnv => DropEnv(s, ch, RepairRemoveEntry, Fail)
    case RepairRemoveEntry => DropEntry(s, ch, RepairReloadOld, Fail)
    case RepairReloadOld => If(s, ch.ok, Settle, Fail)
  }

  predicate Settles(pc: PC) {
    pc.Cancel? || pc.Settle? || pc.Fail? || pc.Postcondition? || pc.RepairClearJournal?
  }

  function SettleStep(o: Origin, s: Site, ch: Choice): Site
    requires Settles(s.pc)
  {
    match s.pc
    case Cancel =>
      var t := Move(s, Cancelled, ch.outcome);
      t.(pc := if Shows(t, Cancelled) then RepairClearJournal else Fail)
    case Settle =>
      var t := Move(s, Succeeded, ch.outcome);
      t.(pc := if Shows(t, Succeeded) then RepairClearJournal else Fail)
    case Fail => Move(s, RecoveryRequired, ch.outcome).(pc := Idle)
    case Postcondition =>
      If(s, ch.ok && (if o.closing then !s.env && s.entry.Absent? else s.env && !s.entry.Absent?), RepairClearJournal,
         Idle)
    case RepairClearJournal => Remove(s, ch, Idle)
  }

  function Step(o: Origin, s: Site, ch: Choice): Site {
    if Creates(s.pc) then Create(s, ch)
    else if Closes(s.pc) then Close(s, ch)
    else if s.pc.Finish? || s.pc.ClearJournal? then End(s, ch)
    else if Repairs(s.pc) then Repair(o, s, ch)
    else if Settles(s.pc) then SettleStep(o, s, ch)
    else s
  }

  function Restarted(s: Site, outcome: WriteOutcome): Site {
    var record := L.Recovered(s.record, s.journal);
    s.(record := if Visible(outcome) then record else s.record,
       deferred := None,
       pc := if outcome.Persisted? || record == s.record then Idle else Stopped)
  }

  function Flushed(s: Site, outcome: WriteOutcome): Site {
    if s.pc.Stopped? then s else WithLine(s, L.Flushed(L.Line(s.record, s.deferred), outcome))
  }

  /** Retention drops a finished record, whether or not the journal names it. */
  function Expired(s: Site): Site {
    s.(stored := s.stored && !IsTerminal(s.record))
  }

  function Apply(o: Origin, s: Site, e: Event): Site {
    match e
    case Act(ch) => Step(o, s, ch)
    case StartRepair => if s.pc.Idle? && s.journal then s.(pc := Lookup) else s
    case Flush(outcome) => Flushed(s, outcome)
    case Restart(outcome) => Restarted(s, outcome)
    case Expire => Expired(s)
  }

  function Run(o: Origin, s: Site, events: seq<Event>): Site
    decreases |events|
  {
    if events == [] then s else Run(o, Apply(o, s, events[0]), events[1..])
  }

  // -------------------------------------------------------------- Invariant

  predicate Untouched(o: Origin, s: Site) {
    s.env == o.env && s.entry == o.entry && s.stack == o.stack && !s.record.Succeeded?
  }

  /** Everything: an env, an entry, fresh unless one was left over before, and a
      stack; or none of them. */
  predicate Done(o: Origin, s: Site) {
    s.record.Succeeded? &&
    if o.closing then !s.env && s.entry.Absent? && !s.stack
    else s.env && !s.entry.Absent? && s.stack && (o.entry.Absent? ==> s.entry.New?)
  }

  predicate Claims(s: Site, status: Status) {
    s.record == status || s.deferred == Some(status)
  }

  predicate InProgress(o: Origin, s: Site) {
    && (if o.closing then
          (!s.env ==> !s.stack) && (s.entry.Absent? ==> !s.env) && (s.entry.Absent? || s.entry.Old?)
          && (Claims(s, Succeeded) ==> !s.env && s.entry.Absent?) && !Claims(s, Cancelled)
        else
          !o.env && (!s.env ==> s.entry == o.entry && s.stack == o.stack)
          && (s.env ==> s.entry == o.entry || s.entry.New?)
          && (Claims(s, Succeeded) ==> s.env && !s.entry.Absent? && s.stack)
          && (Claims(s, Cancelled) ==> !s.env && s.entry.Absent?))
    && !Claims(s, Failed) && !Claims(s, Pending)
  }

  predicate Consistent(o: Origin, s: Site) {
    && (IsTerminal(s.record) ==> s.deferred.None?)
    && (!s.stored ==> IsTerminal(s.record))
    && (if s.journal then InProgress(o, s)
        else
          (Untouched(o, s) || Done(o, s)) && !s.record.RecoveryRequired?
          && (s.deferred.Some? ==> s.deferred.value.Failed? || s.deferred.value.Cancelled?))
  }

  predicate AtWork(pc: PC) {
    Creates(pc) || Closes(pc) || pc.Finish?
  }

  predicate Placed(o: Origin, s: Site) {
    && (Creates(s.pc) ==> !o.closing) && (Closes(s.pc) ==> o.closing)
    && (AtWork(s.pc) ==> s.record.Running? && s.deferred.None?)
    && match s.pc
       case CheckEnv => !s.journal
       case WriteCreateJournal => !s.journal && !s.env
       case WriteEnv | Unwrite => s.journal && !s.env
       case Written | AddEntry => s.journal && s.env
       case UpNew => s.journal && s.env && s.entry.New?
       case ReloadNew(up) => s.journal && s.env && s.entry.New? && (up ==> s.stack)
       case WriteCloseJournal => !s.journal
       case AdvanceClose | DownOld => s.journal && s.env && s.entry.Old?
       case RemoveEnv => s.journal && !s.stack
       case RemoveEntry => s.journal && !s.env
       case ReloadOld => s.journal && !s.env && s.entry.Absent?
       case Finish(ok) =>
         ok ==> s.journal && if o.closing then !s.env && s.entry.Absent? else s.env && s.entry.New? && s.stack
       case ClearJournal => s.journal && s.record.Succeeded?
       case Lookup | LookAround | Fail => s.journal
       case Cancel => s.journal && !o.closing && !s.env && s.entry.Absent?
       case RepairEntry => s.journal && !o.closing && s.env
       case RepairUp => s.journal && !o.closing && s.env && !s.entry.Absent?
       case RepairReloadNew => s.journal && !o.closing && s.env && !s.entry.Absent? && s.stack
       case RepairDown => s.journal && o.closing
       case RepairRemoveEnv => s.journal && o.closing && !s.stack
       case RepairRemoveEntry => s.journal && o.closing && !s.env
       case RepairReloadOld => s.journal && o.closing && !s.env && s.entry.Absent?
       case Settle => s.journal && if o.closing then !s.env && s.entry.Absent? else s.env && !s.entry.Absent? && s.stack
       case Postcondition => s.journal && s.record.Succeeded?
       case RepairClearJournal => s.journal && (s.record.Succeeded? || s.record.Cancelled?)
       case Idle => !s.journal && s.deferred.None? ==> IsTerminal(s.record)
       case Stopped => true
  }

  predicate Inv(o: Origin, s: Site) {
    Admitted(o) && Consistent(o, s) && Placed(o, s)
  }

  lemma InitialIsConsistent(o: Origin)
    requires Admitted(o)
    ensures Inv(o, Initial(o))
  {
  }

  lemma WritingKeeps(o: Origin, s: Site, ch: Choice)
    requires Inv(o, s) && (s.pc.CheckEnv? || s.pc.WriteCreateJournal? || s.pc.WriteEnv? || s.pc.Unwrite?)
    ensures Inv(o, Create(s, ch))
  {
  }

  lemma BuildingKeeps(o: Origin, s: Site, ch: Choice)
    requires Inv(o, s) && (s.pc.Written? || s.pc.AddEntry? || s.pc.UpNew? || s.pc.ReloadNew?)
    ensures Inv(o, Create(s, ch))
  {
  }

  lemma CreateKeeps(o: Origin, s: Site, ch: Choice)
    requires Inv(o, s) && Creates(s.pc)
    ensures Inv(o, Create(s, ch))
  {
    if s.pc.Written? || s.pc.AddEntry? || s.pc.UpNew? || s.pc.ReloadNew? { BuildingKeeps(o, s, ch); }
    else { WritingKeeps(o, s, ch); }
  }

  lemma CloseKeeps(o: Origin, s: Site, ch: Choice)
    requires Inv(o, s) && Closes(s.pc)
    ensures Inv(o, Close(s, ch))
  {
  }

  lemma EndKeeps(o: Origin, s: Site, ch: Choice)
    requires Inv(o, s) && (s.pc.Finish? || s.pc.ClearJournal?)
    ensures Inv(o, End(s, ch))
  {
  }

  lemma LookupKeeps(o: Origin, s: Site, ch: Choice)
    requires Inv(o, s) && s.pc.Lookup?
    ensures Inv(o, Repair(o, s, ch))
  {
  }

  lemma LookKeeps(o: Origin, s: Site, ch: Choice)
    requires Inv(o, s) && s.pc.LookAround?
    ensures Inv(o, Repair(o, s, ch))
  {
  }

  lemma RepairEntryKeeps(o: Origin, s: Site, ch: Choice)
    requires Inv(o, s) && s.pc.RepairEntry?
    ensures Inv(o, Repair(o, s, ch))
  {
  }

  lemma RepairUpKeeps(o: Origin, s: Site, ch: Choice)
    requires Inv(o, s) && s.pc.RepairUp?
    ensures Inv(o, Repair(o, s, ch))
  {
  }

  lemma RepairReloadKeeps(o: Origin, s: Site, ch: Choice)
    requires Inv(o, s) && s.pc.RepairReloadNew?
    ensures Inv(o, Repair(o, s, ch))
  {
  }

  lemma RepairDownKeeps(o: Origin, s: Site, ch: Choice)
    requires Inv(o, s) && s.pc.RepairDown?
    ensures Inv(o, Repair(o, s, ch))
  {
  }

  lemma RemoveEnvKeeps(o: Origin, s: Site, ch: Choice)
    requires Inv(o, s) && s.pc.RepairRemoveEnv?
    ensures Inv(o, Repair(o, s, ch))
  {
  }

  lemma RemoveEntryKeeps(o: Origin, s: Site, ch: Choice)
    requires Inv(o, s) && s.pc.RepairRemoveEntry?
    ensures Inv(o, Repair(o, s, ch))
  {
  }

  lemma ReloadOldKeeps(o: Origin, s: Site, ch: Choice)
    requires Inv(o, s) && s.pc.RepairReloadOld?
    ensures Inv(o, Repair(o, s, ch))
  {
  }

  lemma RepairKeeps(o: Origin, s: Site, ch: Choice)
    requires Inv(o, s) && Repairs(s.pc)
    ensures Inv(o, Repair(o, s, ch))
  {
    match s.pc
    case Lookup => LookupKeeps(o, s, ch);
    case LookAround => LookKeeps(o, s, ch);
    case RepairEntry => RepairEntryKeeps(o, s, ch);
    case RepairUp => RepairUpKeeps(o, s, ch);
    case RepairReloadNew => RepairReloadKeeps(o, s, ch);
    case RepairDown => RepairDownKeeps(o, s, ch);
    case RepairRemoveEnv => RemoveEnvKeeps(o, s, ch);
    case RepairRemoveEntry => RemoveEntryKeeps(o, s, ch);
    case RepairReloadOld => ReloadOldKeeps(o, s, ch);
  }

  lemma CancellingKeeps(o: Origin, s: Site, ch: Choice)
    requires Inv(o, s) && s.pc.Cancel?
    ensures Inv(o, SettleStep(o, s, ch))
  {
  }

  lemma SucceedingKeeps(o: Origin, s: Site, ch: Choice)
    requires Inv(o, s) && s.pc.Settle?
    ensures Inv(o, SettleStep(o, s, ch))
  {
  }

  lemma FailingKeeps(o: Origin, s: Site, ch: Choice)
    requires Inv(o, s) && s.pc.Fail?
    ensures Inv(o, SettleStep(o, s, ch))
  {
  }

  lemma LookingKeeps(o: Origin, s: Site, ch: Choice)
    requires Inv(o, s) && s.pc.Postcondition?
    ensures Inv(o, SettleStep(o, s, ch))
  {
  }

  lemma RemovingKeeps(o: Origin, s: Site, ch: Choice)
    requires Inv(o, s) && s.pc.RepairClearJournal?
    ensures Inv(o, SettleStep(o, s, ch))
  {
  }

  lemma SettleKeeps(o: Origin, s: Site, ch: Choice)
    requires Inv(o, s) && Settles(s.pc)
    ensures Inv(o, SettleStep(o, s, ch))
  {
    if s.pc.Cancel? { CancellingKeeps(o, s, ch); }
    else if s.pc.Settle? { SucceedingKeeps(o, s, ch); }
    else if s.pc.RepairClearJournal? { RemovingKeeps(o, s, ch); }
    else if s.pc.Fail? { FailingKeeps(o, s, ch); }
    else { LookingKeeps(o, s, ch); }
  }

  lemma RestartKeeps(o: Origin, s: Site, outcome: WriteOutcome)
    requires Inv(o, s)
    ensures Inv(o, Restarted(s, outcome))
  {
  }

  lemma FlushKeeps(o: Origin, s: Site, outcome: WriteOutcome)
    requires Inv(o, s)
    ensures Inv(o, Flushed(s, outcome))
  {
  }

  lemma ExpireKeeps(o: Origin, s: Site)
    requires Inv(o, s)
    ensures Inv(o, Expired(s))
  {
  }

  lemma ApplyKeeps(o: Origin, s: Site, e: Event)
    requires Inv(o, s)
    ensures Inv(o, Apply(o, s, e))
  {
    match e
    case Restart(outcome) => RestartKeeps(o, s, outcome);
    case Flush(outcome) => FlushKeeps(o, s, outcome);
    case Expire => ExpireKeeps(o, s);
    case StartRepair =>
    case Act(ch) =>
      if Creates(s.pc) { CreateKeeps(o, s, ch); }
      else if Closes(s.pc) { CloseKeeps(o, s, ch); }
      else if s.pc.Finish? || s.pc.ClearJournal? { EndKeeps(o, s, ch); }
      else if Repairs(s.pc) { RepairKeeps(o, s, ch); }
      else if Settles(s.pc) { SettleKeeps(o, s, ch); }
  }

  lemma {:induction false} RunKeeps(o: Origin, s: Site, events: seq<Event>)
    requires Inv(o, s)
    ensures Inv(o, Run(o, s, events))
    decreases |events|
  {
    if events != [] {
      ApplyKeeps(o, s, events[0]);
      RunKeeps(o, Apply(o, s, events[0]), events[1..]);
    }
  }

  // --------------------------------------------------------------- Theorems

  /** Once nobody is at work and no journal is left, a create has produced env,
      entry and stack with the operation succeeded, or nothing; a close has
      removed all three with it succeeded, or nothing. */
  lemma ServersAreAllOrNothing(o: Origin, events: seq<Event>)
    requires Admitted(o)
    ensures var s := Run(o, Initial(o), events);
      && (!s.journal && (s.pc.Idle? || s.pc.Stopped?) ==> Untouched(o, s) || Done(o, s))
      && (!s.journal && s.pc.Idle? && s.deferred.None? ==> IsTerminal(s.record))
  {
    InitialIsConsistent(o);
    RunKeeps(o, Initial(o), events);
  }

  /** Why a close's repair may skip `down`: an env that is gone was removed only
      after a `down` that succeeded, so there is no stack left. */
  lemma NoEnvMeansNoStack(o: Origin, events: seq<Event>)
    requires Admitted(o)
    ensures var s := Run(o, Initial(o), events);
      && (o.closing && !s.env ==> !s.stack)
      && (o.closing && s.entry.Absent? ==> !s.env)
  {
    InitialIsConsistent(o);
    RunKeeps(o, Initial(o), events);
  }

  const GOOD := Choice(true, Persisted, false)

  function Acts(o: Origin, s: Site, n: nat): Site
    decreases n
  {
    if n == 0 then s else Acts(o, Step(o, s, GOOD), n - 1)
  }

  function GoodRepair(o: Origin, s: Site): Site {
    Acts(o, Apply(o, s, StartRepair), 8)
  }

  lemma GoodVerdict(o: Origin, s: Site)
    requires (s.pc.Settle? || s.pc.Cancel?) && s.stored && !IsTerminal(s.record)
    ensures Acts(o, s, 2) ==
        s.(record := if s.pc.Settle? then Succeeded else Cancelled, deferred := None, journal := false, pc := Idle)
  {
    var a := Step(o, s, GOOD);
    assert Acts(o, s, 2) == Acts(o, a, 1) == Acts(o, Step(o, a, GOOD), 0);
  }

  lemma {:induction false} IdleStays(o: Origin, s: Site, n: nat)
    requires s.pc.Idle?
    ensures Acts(o, s, n) == s
    decreases n
  {
    if n > 0 { IdleStays(o, s, n - 1); }
  }

  lemma {:induction false} ActsCompose(o: Origin, s: Site, m: nat, n: nat)
    ensures Acts(o, s, m + n) == Acts(o, Acts(o, s, m), n)
    decreases n
  {
    if n > 0 {
      ActsCompose(o, s, m, n - 1);
      LastStep(o, s, m + n);
      LastStep(o, Acts(o, s, m), n);
    }
  }

  lemma {:induction false} LastStep(o: Origin, s: Site, n: nat)
    requires n > 0
    ensures Acts(o, s, n) == Step(o, Acts(o, s, n - 1), GOOD)
    decreases n
  {
    if n > 1 { LastStep(o, Step(o, s, GOOD), n - 1); }
  }

  lemma VerdictEnds(o: Origin, s: Site, n: nat)
    requires (s.pc.Settle? || s.pc.Cancel?) && s.stored && !IsTerminal(s.record) && n >= 2
    ensures !Acts(o, s, n).journal && Acts(o, s, n).pc.Idle?
  {
    GoodVerdict(o, s);
    ActsCompose(o, s, 2, n - 2);
    IdleStays(o, Acts(o, s, 2), n - 2);
  }

  lemma GoodCloseRepair(o: Origin, s: Site)
    requires o.closing && s.pc.LookAround? && s.stored && !IsTerminal(s.record)
    ensures !Acts(o, s, 7).journal && Acts(o, s, 7).pc.Idle?
  {
    var a := Step(o, s, GOOD);
    assert a == s.(pc := if s.env then RepairDown else RepairRemoveEntry);
    assert Acts(o, s, 7) == Acts(o, a, 6);
    if s.env { GoodRemoval(o, a); } else { GoodEntryRemoval(o, a, 6); }
  }

  lemma GoodRemoval(o: Origin, s: Site)
    requires s.pc.RepairDown? && s.stored && !IsTerminal(s.record)
    ensures !Acts(o, s, 6).journal && Acts(o, s, 6).pc.Idle?
  {
    var a := s.(stack := false, pc := RepairRemoveEnv);
    var b := a.(env := false, pc := RepairRemoveEntry);
    assert Step(o, s, GOOD) == a && Step(o, a, GOOD) == b;
    assert Acts(o, s, 6) == Acts(o, a, 5) == Acts(o, b, 4);
    GoodEntryRemoval(o, b, 4);
  }

  lemma GoodEntryRemoval(o: Origin, s: Site, n: nat)
    requires s.pc.RepairRemoveEntry? && s.stored && !IsTerminal(s.record) && n >= 4
    ensures !Acts(o, s, n).journal && Acts(o, s, n).pc.Idle?
  {
    var a := Step(o, s, GOOD);
    var b := Step(o, a, GOOD);
    assert Acts(o, s, n) == Acts(o, a, n - 1) == Acts(o, b, n - 2);
    VerdictEnds(o, b, n - 2);
  }

  lemma GoodCreateRepair(o: Origin, s: Site)
    requires !o.closing && s.pc.LookAround? && s.stored && !IsTerminal(s.record) && (s.env || s.entry.Absent?)
    ensures !Acts(o, s, 7).journal && Acts(o, s, 7).pc.Idle?
  {
    var a := Step(o, s, GOOD);
    assert Acts(o, s, 7) == Acts(o, a, 6);
    if !s.env {
      VerdictEnds(o, a, 6);
    } else if s.entry.Absent? {
      var b := Step(o, a, GOOD);
      assert Acts(o, a, 6) == Acts(o, b, 5);
      GoodUp(o, b, 5);
    } else {
      GoodUp(o, a, 6);
    }
  }

  lemma GoodUp(o: Origin, s: Site, n: nat)
    requires s.pc.RepairUp? && s.stored && !IsTerminal(s.record) && n >= 4
    ensures !Acts(o, s, n).journal && Acts(o, s, n).pc.Idle?
  {
    var a := Step(o, s, GOOD);
    var b := Step(o, a, GOOD);
    assert Acts(o, s, n) == Acts(o, a, n - 1) == Acts(o, b, n - 2);
    VerdictEnds(o, b, n - 2);
  }

  lemma GoodCreateRepairRefuses(o: Origin, s: Site)
    requires !o.closing && s.pc.LookAround? && !s.env && !s.entry.Absent?
    ensures Acts(o, s, 7).journal == s.journal
  {
    var a := Step(o, s, GOOD);
    var b := Step(o, a, GOOD);
    assert Acts(o, s, 7) == Acts(o, a, 6) == Acts(o, b, 5);
    IdleStays(o, b, 5);
  }

  lemma GoodPostcondition(o: Origin, s: Site)
    requires s.pc.Postcondition? && if o.closing then !s.env && s.entry.Absent? else s.env && !s.entry.Absent?
    ensures !Acts(o, s, 7).journal
  {
    var a := s.(pc := RepairClearJournal);
    assert Step(o, s, GOOD) == a;
    assert Acts(o, s, 7) == Acts(o, a, 6);
    GoodClears(o, a, 6);
  }

  lemma GoodClears(o: Origin, s: Site, n: nat)
    requires s.pc.RepairClearJournal? && n > 0
    ensures Acts(o, s, n) == s.(journal := false, pc := Idle)
  {
    var a := s.(journal := false, pc := Idle);
    assert Step(o, s, GOOD) == a;
    IdleStays(o, a, n - 1);
  }

  lemma GoodCancelAgain(o: Origin, s: Site)
    requires !o.closing && !s.env && s.entry.Absent? && s.pc.LookAround? && s.stored && s.record.Cancelled?
    ensures !Acts(o, s, 7).journal
  {
    var a := Step(o, s, GOOD);
    assert a == s.(pc := Cancel);
    assert Acts(o, s, 7) == Acts(o, a, 6);
    CancelledClears(o, a);
  }

  lemma CancelledClears(o: Origin, s: Site)
    requires s.pc.Cancel? && s.stored && s.record.Cancelled?
    ensures !Acts(o, s, 6).journal
  {
    var a := s.(pc := RepairClearJournal);
    assert Step(o, s, GOOD) == a;
    assert Acts(o, s, 6) == Acts(o, a, 5);
    GoodClears(o, a, 5);
  }

  lemma LookupGoesOn(o: Origin, s: Site)
    requires s.journal && s.pc.Idle? && s.stored
    ensures GoodRepair(o, s) == Acts(o, s.(pc := if s.record.Succeeded? then Postcondition else LookAround), 7)
  {
    assert Step(o, s.(pc := Lookup), GOOD) == s.(pc := if s.record.Succeeded? then Postcondition else LookAround);
  }

  lemma LookupFindsNoRecord(o: Origin, s: Site)
    requires s.journal && s.pc.Idle? && !s.stored
    ensures GoodRepair(o, s) == s
  {
    assert Step(o, s.(pc := Lookup), GOOD) == s;
    IdleStays(o, s, 7);
  }

  /** A repair in which every call succeeds clears the journal exactly when the
      store still has the operation's record and the operation is not a create
      that crashed before its env was written, over an entry left from before.
      Such a create, and a journal without its record, need a hand. */
  lemma GoodRepairFinishesIff(o: Origin, s: Site)
    requires Inv(o, s) && s.journal && s.pc.Idle?
    ensures !GoodRepair(o, s).journal <==> s.stored && (o.closing || s.env || s.entry.Absent?)
  {
    if s.stored { GoodRepairOfStored(o, s); } else { LookupFindsNoRecord(o, s); }
  }

  lemma GoodRepairOfStored(o: Origin, s: Site)
    requires Inv(o, s) && s.journal && s.pc.Idle? && s.stored
    ensures !GoodRepair(o, s).journal <==> o.closing || s.env || s.entry.Absent?
  {
    LookupGoesOn(o, s);
    var b := s.(pc := LookAround);
    if s.record.Succeeded? { GoodPostcondition(o, s.(pc := Postcondition)); }
    else if s.record.Cancelled? { GoodCancelAgain(o, b); }
    else if o.closing { GoodCloseRepair(o, b); }
    else if s.env || s.entry.Absent? { GoodCreateRepair(o, b); }
    else { GoodCreateRepairRefuses(o, b); }
  }

  // --------------------------------------------- A journal without its record

  predicate Stranded(s: Site) {
    s.journal && !s.stored && IsTerminal(s.record) && (s.pc.Idle? || s.pc.Lookup? || s.pc.Stopped?)
  }

  /** Everything but who is looking, and what waits to be written. */
  predicate Alike(s: Site, t: Site) {
    t == s.(pc := t.pc, deferred := t.deferred)
  }

  lemma StrandedStep(o: Origin, s: Site, e: Event)
    requires Stranded(s)
    ensures Stranded(Apply(o, s, e)) && Alike(s, Apply(o, s, e))
  {
  }

  /** Once retention has dropped the record, no repair and no restart changes
      anything any more: the journal stays for good. */
  lemma {:induction false} PrunedRecordStrandsTheJournal(o: Origin, s: Site, events: seq<Event>)
    requires Stranded(s)
    ensures Stranded(Run(o, s, events)) && Alike(s, Run(o, s, events))
    decreases |events|
  {
    if events != [] {
      StrandedStep(o, s, events[0]);
      PrunedRecordStrandsTheJournal(o, Apply(o, s, events[0]), events[1..]);
    }
  }

  const UNREMOVED := Act(GOOD.(outcome := NotCommitted))

  /** A create crashed before its env; its repair records the cancellation but
      cannot remove the journal, and the record outlives its retention. */
  lemma CancellationCanBeStranded()
    ensures var o := Origin(false, false, Absent, false);
      var crashed := Run(o, Initial(o), [Act(GOOD), Act(GOOD), Restart(Persisted)]);
      var s := Run(o, crashed, [StartRepair, Act(GOOD), Act(GOOD), Act(GOOD), UNREMOVED, Expire]);
      Admitted(o) && Stranded(s) && s.record.Cancelled? && Untouched(o, s)
  {
    var o := Origin(false, false, Absent, false);
    var crashed := Site(false, Absent, false, true, RecoveryRequired, true, None, Idle);
    CreateCrashes(o);
    var a := crashed.(pc := LookAround);
    var last := [UNREMOVED, Expire];
    RepairLooksAround(o, crashed, [Act(GOOD), Act(GOOD)] + last);
    RepairCancels(o, a, last);
    GrowsTooOld(o, a.(record := Cancelled, pc := RepairClearJournal));
    assert [StartRepair, Act(GOOD)] + ([Act(GOOD), Act(GOOD)] + last) ==
           [StartRepair, Act(GOOD), Act(GOOD), Act(GOOD), UNREMOVED, Expire];
  }

  lemma CreateCrashes(o: Origin)
    requires o == Origin(false, false, Absent, false)
    ensures Run(o, Initial(o), [Act(GOOD), Act(GOOD), Restart(Persisted)]) ==
            Site(false, Absent, false, true, RecoveryRequired, true, None, Idle)
  {
    var a := Apply(o, Initial(o), Act(GOOD));
    var b := Apply(o, a, Act(GOOD));
    var c := Apply(o, b, Restart(Persisted));
    assert [Act(GOOD), Act(GOOD), Restart(Persisted)][1..] == [Act(GOOD), Restart(Persisted)];
    assert [Act(GOOD), Restart(Persisted)][1..] == [Restart(Persisted)];
    assert Run(o, a, [Act(GOOD), Restart(Persisted)]) == Run(o, b, [Restart(Persisted)]) == Run(o, c, []);
  }

  lemma RepairLooksAround(o: Origin, s: Site, rest: seq<Event>)
    requires s.pc.Idle? && s.journal && s.stored && !s.record.Succeeded?
    ensures Run(o, s, [StartRepair, Act(GOOD)] + rest) == Run(o, s.(pc := LookAround), rest)
  {
    assert ([StartRepair, Act(GOOD)] + rest)[1..] == [Act(GOOD)] + rest;
    assert ([Act(GOOD)] + rest)[1..] == rest;
    assert Run(o, s.(pc := Lookup), [Act(GOOD)] + rest) == Run(o, s.(pc := LookAround), rest);
  }

  lemma RepairCancels(o: Origin, s: Site, rest: seq<Event>)
    requires !o.closing && s.pc.LookAround? && !s.env && s.entry.Absent? && s.stored && s.record.RecoveryRequired?
    requires s.journal
    ensures Run(o, s, [Act(GOOD), Act(GOOD)] + rest) ==
        Run(o, s.(record := Cancelled, deferred := None, pc := RepairClearJournal), rest)
  {
    assert ([Act(GOOD), Act(GOOD)] + rest)[1..] == [Act(GOOD)] + rest;
    assert ([Act(GOOD)] + rest)[1..] == rest;
    var a := s.(pc := Cancel);
    assert Apply(o, s, Act(GOOD)) == a;
    assert Run(o, a, [Act(GOOD)] + rest) ==
        Run(o, s.(record := Cancelled, deferred := None, pc := RepairClearJournal), rest);
  }

  lemma GrowsTooOld(o: Origin, s: Site)
    requires s.pc.RepairClearJournal? && s.journal && s.stored && IsTerminal(s.record)
    ensures Run(o, s, [UNREMOVED, Expire]) == s.(stored := false, pc := Idle)
  {
    var a := s.(pc := Idle);
    assert [UNREMOVED, Expire][1..] == [Expire];
    assert Run(o, a, [Expire]) == Run(o, Expired(a), []);
  }

  // ------------------------------------------------ An entry that was left over

  /** And the exception is reachable: the journal is written, then the process dies. */
  lemma LeftoverEntryStrandsACreate()
    ensures var o := Origin(false, false, Old, false);
      var s := Run(o, Initial(o), [Act(GOOD), Act(GOOD), Restart(Persisted)]);
      && Admitted(o) && Inv(o, s) && s.pc.Idle? && GoodRepair(o, s).journal
  {
    var o := Origin(false, false, Old, false);
    var events := [Act(GOOD), Act(GOOD), Restart(Persisted)];
    var a := Apply(o, Initial(o), Act(GOOD));
    var b := Apply(o, a, Act(GOOD));
    var c := Apply(o, b, Restart(Persisted));
    assert events[1..] == [Act(GOOD), Restart(Persisted)] && events[1..][1..] == [Restart(Persisted)];
    assert Run(o, a, events[1..]) == Run(o, b, [Restart(Persisted)]) == Run(o, c, []);
    InitialIsConsistent(o);
    RunKeeps(o, Initial(o), events);
    GoodRepairFinishesIff(o, c);
  }
}
