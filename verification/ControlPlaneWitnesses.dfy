/** Runs from the first start-up to the states that the findings are about. */
module ControlPlaneWitnesses {
  import opened Lifecycle
  import opened ControlPlane
  import opened ControlPlaneInvariant
  import opened ControlPlaneTheorems
  import opened ControlPlaneWedge
  import C = Coordination
  import S = OperationStore

  ghost predicate Reachable(w: World) {
    exists ws, es :: Run(ws, es) && ws[|es|] == w
  }

  lemma Goes(w: World, e: Event, v: World)
    requires Reachable(w) && Steps(w, e, v)
    ensures Reachable(v)
  {
    var ws, es :| Run(ws, es) && ws[|es|] == w;
    var us, ds := ws + [v], es + [e];
    forall k | 0 <= k < |ds| ensures StepAt(us, ds, k) {
      if k < |es| { assert StepAt(ws, es, k); }
    }
    assert Run(us, ds) && us[|ds|] == v;
  }

  // ------------------------------------------------------------- The scenes

  function Hex(n: nat): string {
    seq(n, _ => 'a')
  }

  const LIMITS := S.Limits(8, 1000)
  const NOTHING := S.Store(map[], map[], map[])

  /** Request 2 creates server "a" and presents the maintenance token "tok". */
  function Creation(): C.Preparation {
    C.Preparation(2, CreateKind, Hex(32), "a", Hex(64), "tok", false)
  }

  function Record(status: Status, http: int, message: Message): S.Record {
    S.Record(Hex(32), CreateKind, "a", Hex(64), status, http, message, 1, 1)
  }

  function Holding(r: S.Record): S.Store {
    S.Store(map[Hex(32) := r], map[], map[Hex(32) := r])
  }

  function Creator(pc: PC, leased: bool, job: string): Thread {
    Thread(Requester, pc, Creation(), leased, false, false, true, 200, job)
  }

  function Mutating(pc: PC): Thread {
    Thread(Mutator, pc, Blank(1), !pc.AwaitBegin?, false, false, true, 200, "")
  }

  function Repairs(pc: PC): Thread {
    Thread(Repairer, pc, Blank(3), !pc.AwaitRecovery?, false, false, true, 200, "")
  }

  function Choose(ok: bool, pick: nat, outcome: WriteOutcome, token: string): Choice {
    Choice(1, outcome, ok, pick, 500, token, "job")
  }

  const GOOD := Choose(true, 0, Persisted, "spare")
  const TOKEN := Choose(true, 0, Persisted, "tok")
  const UNSYNCED := Choose(true, 0, CommittedUnsynced, "spare")

  /** Nobody sleeps or replays, and retention is no concern. */
  predicate Calm(w: World) {
    && w.up && w.sleeping == map[] && w.author.Keys == w.st.operations.Keys && w.st.file == w.st.operations
    && "" !in w.st.operations && (w.journal.Some? ==> w.journal.value.operation == "")
    && (forall u :: u in w.threads ==> !Replaying(w.threads[u]))
  }

  /** The thread may take a step now, and `v` is what the step leaves. */
  ghost predicate Turns(w: World, t: nat, th: Thread, ch: Choice, step: Step, v: World) {
    && Reachable(w) && Calm(w) && t in w.threads && th == w.threads[t] && Fresh(w, ch.token) && ch.http == 500
    && v == Perform(w, t, step)
  }

  lemma Takes(w: World, t: nat, th: Thread, ch: Choice, step: Step, v: World)
    requires Turns(w, t, th, ch, step, v) && step == Next(w, t, ch)
    ensures Reachable(v)
  {
    Goes(w, Act(t, ch), v);
  }

  lemma Admits(w: World, t: nat, th: Thread, ch: Choice, step: Step, v: World)
    requires Turns(w, t, th, ch, step, v) && Admitting(th.pc) && step == Admission(w, th, ch)
    ensures Reachable(v)
  {
    Takes(w, t, th, ch, step, v);
  }

  lemma Serves(w: World, t: nat, th: Thread, ch: Choice, step: Step, v: World)
    requires Turns(w, t, th, ch, step, v) && Serving(th.pc) && step == Service(w, t, th, ch)
    ensures Reachable(v)
  {
    Takes(w, t, th, ch, step, v);
  }

  lemma Exits(w: World, t: nat, th: Thread, ch: Choice, step: Step, v: World)
    requires Turns(w, t, th, ch, step, v) && Exiting(th.pc) && step == Exit(w, t, th, ch)
    ensures Reachable(v)
  {
    Takes(w, t, th, ch, step, v);
  }

  lemma Transits(w: World, t: nat, th: Thread, ch: Choice, goal: S.Goal, after: After, step: Step, v: World)
    requires Turns(w, t, th, ch, step, v) && th.pc == Transitioning(goal, after)
    requires step == Transition(w, th, goal, after, ch)
    ensures Reachable(v)
  {
    Exits(w, t, th, ch, step, v);
  }

  lemma RunsErrand(w: World, t: nat, th: Thread, ch: Choice, step: Step, v: World)
    requires Turns(w, t, th, ch, step, v) && !Admitting(th.pc) && !Serving(th.pc) && !Exiting(th.pc)
    requires step == Errand(w, t, th, ch)
    ensures Reachable(v)
  {
    Takes(w, t, th, ch, step, v);
  }

  /** The coordinator while the barrier is open, with an unused lease issued. */
  function Open(active: Option<nat>, preparing: Option<C.Preparation>): C.Coord {
    C.Coord(false, false, active, preparing, false, Some(C.MaintenanceLease("tok", "", "", false)), {}, {}, 2)
  }

  function Scene(c: C.Coord, journal: Option<Journal>, st: S.Store, threads: map<nat, Thread>, next: nat): World {
    World(true, c, false, journal, st, LIMITS, threads, map[], next, map id | id in st.operations :: 2, {}, {}, {},
          {"tok"}, {})
  }

  // ------------------------------------------- A lease beside an open barrier

  function Fresh0(): World {
    Scene(C.Startup(false, false), None, NOTHING, map[], 0).(issued := {})
  }

  function Entered(): World {
    Fresh0().(c := C.EnterMaintenance(C.Startup(false, false)), marker := true, next := 1,
              threads := map[0 := Thread(Maintainer, AwaitDrain, Blank(0), false, false, false, true, 200, "")])
  }

  function Left(): World {
    Entered().(c := Open(None, None).(lease := None), marker := false)
  }

  function Leased(): World {
    Scene(Open(None, None), None, NOTHING, map[], 1)
  }

  function Begun(): World {
    Scene(Open(Some(1), None), None, NOTHING, map[1 := Mutating(Working)], 2)
  }

  lemma FreshIsReachable()
    ensures Reachable(Fresh0())
  {
    var w := Fresh0().(up := false);
    var ws, es := [w], [];
    assert Run(ws, es) && ws[|es|] == w;
    Goes(w, Restart(1, Persisted, 1, Persisted), Fresh0());
  }

  lemma LeftIsReachable()
    ensures Reachable(Left())
  {
    FreshIsReachable();
    Goes(Fresh0(), EnterMaintenance(true), Entered());
    Goes(Entered(), LeaveMaintenance(true), Left());
  }

  lemma LeasedIsReachable()
    ensures Reachable(Leased())
  {
    LeftIsReachable();
    RunsErrand(Left(), 0, Left().threads[0], TOKEN, Depart(Open(None, None)), Leased());
  }

  lemma BegunIsReachable()
    ensures Reachable(Begun())
  {
    LeasedIsReachable();
    var a := Leased().(threads := map[1 := Mutating(AwaitBegin)], next := 2);
    Goes(Leased(), Mutate, a);
    RunsErrand(a, 1, Mutating(AwaitBegin), GOOD, Coordinate(Open(Some(1), None), Mutating(Working)), Begun());
  }

  // ------------------------------------ A create prepares beside the mutation

  /** The mutation at work and the create at `pc`, before it has prepared. */
  function Beside(pc: PC): World {
    Scene(Open(Some(1), None), None, NOTHING, map[1 := Mutating(Working), 2 := Creator(pc, false, "")], 3)
  }

  function Preparing(pc: PC, st: S.Store, job: string): World {
    Scene(Open(Some(1), Some(Creation())), None, st, map[1 := Mutating(Working), 2 := Creator(pc, false, job)], 3)
  }

  const PENDING := Record(Pending, 0, NoMessage)

  lemma Arrives()
    ensures Reachable(Beside(FirstLookup))
  {
    BegunIsReachable();
    Goes(Begun(), Request(Creation()), Beside(FirstLookup));
  }

  lemma ReadsFiles()
    ensures Reachable(Beside(ReadFiles))
  {
    Arrives();
    Admits(Beside(FirstLookup), 2, Creator(FirstLookup, false, ""), GOOD, Stay(Creator(ReadFiles, false, "")),
           Beside(ReadFiles));
  }

  lemma Asks()
    ensures Reachable(Beside(AwaitPrepare(true)))
  {
    ReadsFiles();
    Admits(Beside(ReadFiles), 2, Creator(ReadFiles, false, ""), GOOD, Stay(Creator(AwaitPrepare(true), false, "")),
           Beside(AwaitPrepare(true)));
  }

  lemma Prepares()
    ensures Reachable(Preparing(SecondLookup, NOTHING, ""))
  {
    Asks();
    var a, b := Beside(AwaitPrepare(true)), Preparing(SecondLookup, NOTHING, "");
    Admits(a, 2, Creator(AwaitPrepare(true), false, ""), GOOD, Coordinate(b.c, Creator(SecondLookup, false, "")), b);
  }

  lemma Looks()
    ensures Reachable(Preparing(ReserveRecord, NOTHING, ""))
  {
    Prepares();
    Admits(Preparing(SecondLookup, NOTHING, ""), 2, Creator(SecondLookup, false, ""), GOOD,
           Stay(Creator(ReserveRecord, false, "")), Preparing(ReserveRecord, NOTHING, ""));
  }

  lemma ReservationIsNew()
    ensures S.Reserve(NOTHING, LIMITS, Wanted(Creation()), 1, Persisted) == (Holding(PENDING), S.Reserved(PENDING))
  {
  }

  lemma Reserves()
    ensures Reachable(Preparing(ReserveJob, Holding(PENDING), ""))
  {
    Looks();
    ReservationIsNew();
    Admits(Preparing(ReserveRecord, NOTHING, ""), 2, Creator(ReserveRecord, false, ""), GOOD,
           Write(Holding(PENDING), Creator(ReserveJob, false, "")), Preparing(ReserveJob, Holding(PENDING), ""));
  }

  lemma TakesJob()
    ensures Reachable(Preparing(ReadFilesAgain, Holding(PENDING), "job"))
  {
    Reserves();
    Admits(Preparing(ReserveJob, Holding(PENDING), ""), 2, Creator(ReserveJob, false, ""), GOOD,
           Stay(Creator(ReadFilesAgain, false, "job")), Preparing(ReadFilesAgain, Holding(PENDING), "job"));
  }

  lemma AwaitsPromotion()
    ensures Reachable(Preparing(AwaitPromote(true), Holding(PENDING), "job"))
  {
    TakesJob();
    Serves(Preparing(ReadFilesAgain, Holding(PENDING), "job"), 2, Creator(ReadFilesAgain, false, "job"), GOOD,
           Stay(Creator(AwaitPromote(true), false, "job")), Preparing(AwaitPromote(true), Holding(PENDING), "job"));
  }

  // ------------------------------- The mutation leaves its journal unannounced

  const JOURNAL := Some(Journal("", 1))

  function Unannounced(): World {
    Scene(Open(Some(1), Some(Creation())), JOURNAL, Holding(PENDING),
          map[1 := Mutating(Releasing), 2 := Creator(AwaitPromote(true), false, "job")], 3)
  }

  /** The barrier closed by the mutation's release, its flag never raised. */
  function Shut(): C.Coord {
    C.Coord(true, false, None, Some(Creation()), false, Some(C.MaintenanceLease("tok", "", "", false)), {1}, {}, 3)
  }

  function Alone(): World {
    Scene(Shut(), JOURNAL, Holding(PENDING), map[2 := Creator(AwaitPromote(true), false, "job")], 3)
  }

  lemma Leaves()
    ensures Reachable(Unannounced())
  {
    AwaitsPromotion();
    Serves(Preparing(AwaitPromote(true), Holding(PENDING), "job"), 1, Mutating(Working), UNSYNCED,
           Replace(JOURNAL, Mutating(Releasing)), Unannounced());
  }

  lemma AloneIsReachable()
    ensures Reachable(Alone())
  {
    Leaves();
    Exits(Unannounced(), 1, Mutating(Releasing), GOOD, Depart(Shut()), Alone());
  }

  // ---------------------------------- The create is promoted over the journal

  /** After the promotion: the lease is spent. */
  function After(c: C.Coord, journal: Option<Journal>, r: S.Record, started: set<nat>, threads: map<nat, Thread>,
                 next: nat): World {
    World(true, c, false, journal, Holding(r), LIMITS, threads, map[], next, map[Hex(32) := 2], started, {}, {2},
          {"tok"}, {"tok"})
  }

  function Spent(closed: bool, flagged: bool, active: Option<nat>, cancelled: set<nat>, broadcasts: nat): C.Coord {
    C.Coord(closed, flagged, active, None, false, Some(C.MaintenanceLease("tok", Hex(32), "job", true)), cancelled, {2},
            broadcasts)
  }

  function Racing(pc: PC, r: S.Record, started: set<nat>): World {
    After(Spent(true, false, Some(2), {1}, 4), JOURNAL, r, started, map[2 := Creator(pc, true, "job")], 3)
  }

  const RUNNING := Record(Running, 202, NoMessage)
  const WAITING := Record(RecoveryRequired, 202, RecoveryMessage)

  lemma IsPromoted()
    ensures Reachable(Racing(Admitted, PENDING, {}))
  {
    AloneIsReachable();
    Serves(Alone(), 2, Creator(AwaitPromote(true), false, "job"), GOOD,
           Coordinate(Racing(Admitted, PENDING, {}).c, Creator(Admitted, true, "job")), Racing(Admitted, PENDING, {}));
  }

  lemma Starts()
    ensures Reachable(Racing(Transitioning(RUNNING_GOAL, AfterStart), PENDING, {}))
  {
    IsPromoted();
    Serves(Racing(Admitted, PENDING, {}), 2, Creator(Admitted, true, "job"), GOOD,
           Stay(Creator(Transitioning(RUNNING_GOAL, AfterStart), true,
                        "job")), Racing(Transitioning(RUNNING_GOAL, AfterStart), PENDING, {}));
  }

  lemma MovesTo(r: S.Record, goal: S.Goal, moved: S.Record)
    requires r.id == Hex(32) && S.ValidRecord(r) && !IsTerminal(r.status) && moved == S.Apply(r, goal, 1)
    requires S.ValidRecord(moved)
    ensures S.Transition(Holding(r), LIMITS, Hex(32), goal, 1, Persisted) == (Holding(moved), S.Moved(moved))
  {
    assert S.Prune(map[Hex(32) := r], 1, 1000)[Hex(32) := moved] == map[Hex(32) := moved];
    var none: S.Records := map[];
    assert none - {Hex(32)} == none;
  }

  lemma RecordMoves(r: S.Record, goal: S.Goal, after: After, moved: S.Record, next: PC, started: set<nat>)
    requires r.id == Hex(32) && S.ValidRecord(r) && !IsTerminal(r.status) && moved == S.Apply(r, goal, 1)
    requires S.ValidRecord(moved)
    requires Resume(Creator(Transitioning(goal, after), true, "job"), goal, after, true) == Creator(next, true, "job")
    requires Reachable(Racing(Transitioning(goal, after), r, started))
    ensures Reachable(Racing(next, moved, if next.Working? then started + {2} else started))
  {
    var w := Racing(Transitioning(goal, after), r, started);
    MovesTo(r, goal, moved);
    AuthorsStay(w, r, moved);
    Transits(w, 2, Creator(Transitioning(goal, after), true, "job"), GOOD, goal, after,
             Write(Holding(moved), Creator(next, true, "job")),
             Racing(next, moved, if next.Working? then started + {2} else started));
  }

  lemma AuthorsStay(w: World, r: S.Record, moved: S.Record)
    requires w.st == Holding(r) && w.author == map[Hex(32) := 2]
    ensures Authors(w, 2, Holding(moved)) == w.author
  {
  }

  lemma Works()
    ensures Reachable(Racing(Working, RUNNING, {2}))
  {
    Starts();
    RecordMoves(PENDING, RUNNING_GOAL, AfterStart, RUNNING, Working, {});
  }

  lemma FindsTheJournal()
    ensures Reachable(Racing(Judging, RUNNING, {2}))
  {
    Works();
    Serves(Racing(Working, RUNNING, {2}), 2, Creator(Working, true, "job"), GOOD,
           Stay(Creator(Judging, true, "job")), Racing(Judging, RUNNING, {2}));
  }

  lemma Judges()
    ensures Reachable(Racing(Transitioning(RECOVERY_GOAL, AfterWork), RUNNING, {2}))
  {
    FindsTheJournal();
    Serves(Racing(Judging, RUNNING, {2}), 2, Creator(Judging, true, "job"), GOOD,
           Stay(Creator(Transitioning(RECOVERY_GOAL, AfterWork), true,
                        "job")), Racing(Transitioning(RECOVERY_GOAL, AfterWork), RUNNING, {2}));
  }

  lemma GivesUp()
    ensures Reachable(Racing(Releasing, WAITING, {2}))
  {
    Judges();
    RecordMoves(RUNNING, RECOVERY_GOAL, AfterWork, WAITING, Releasing, {2});
  }

  /** The worker is gone; its record waits for recovery. */
  function Abandoned(): World {
    After(Spent(true, false, None, {1, 2}, 5), JOURNAL, WAITING, {2}, map[], 3)
  }

  lemma AbandonedIsReachable()
    ensures Reachable(Abandoned())
  {
    GivesUp();
    Exits(Racing(Releasing, WAITING, {2}), 2, Creator(Releasing, true, "job"), GOOD, Depart(Abandoned().c),
          Abandoned());
  }

  // ---------------------------------------- The repair of an unlinked journal

  function Mending(pc: PC, journal: Option<Journal>): World {
    After(Spent(true, true, Some(3), {1, 2}, 5), journal, WAITING, {2}, map[3 := Repairs(pc)], 4)
  }

  lemma AsksForRepair()
    ensures Reachable(Abandoned().(threads := map[3 := Repairs(AwaitRecovery)], next := 4))
  {
    AbandonedIsReachable();
    Goes(Abandoned(), Repair, Abandoned().(threads := map[3 := Repairs(AwaitRecovery)], next := 4));
  }

  lemma BeginsRepair()
    ensures Reachable(Mending(ReadingJournal, JOURNAL))
  {
    AsksForRepair();
    RunsErrand(Abandoned().(threads := map[3 := Repairs(AwaitRecovery)], next := 4), 3, Repairs(AwaitRecovery), GOOD,
               Coordinate(Spent(true, true, Some(3), {1, 2}, 5),
                          Repairs(ReadingJournal)), Mending(ReadingJournal, JOURNAL));
  }

  lemma FindsTheLink()
    ensures Reachable(Mending(CheckingLink, JOURNAL))
  {
    BeginsRepair();
    RunsErrand(Mending(ReadingJournal, JOURNAL), 3, Repairs(ReadingJournal), GOOD, Stay(Repairs(CheckingLink)),
               Mending(CheckingLink, JOURNAL));
  }

  lemma FindsNoRecord()
    ensures Reachable(Mending(Repairing, JOURNAL))
  {
    FindsTheLink();
    RunsErrand(Mending(CheckingLink, JOURNAL), 3, Repairs(CheckingLink), GOOD, Stay(Repairs(Repairing)),
               Mending(Repairing, JOURNAL));
  }

  lemma Mends(goal: S.Goal)
    requires goal == SuccessGoal(Repairs(Repairing))
    ensures Reachable(Mending(Transitioning(goal, AfterRepair), JOURNAL))
  {
    FindsNoRecord();
    RunsErrand(Mending(Repairing, JOURNAL), 3, Repairs(Repairing), GOOD,
               Stay(Repairs(Transitioning(goal, AfterRepair))), Mending(Transitioning(goal, AfterRepair), JOURNAL));
  }

  lemma Clears(goal: S.Goal)
    requires goal == SuccessGoal(Repairs(Repairing))
    ensures Reachable(Mending(Clearing(ClearRepair), JOURNAL))
  {
    Mends(goal);
    Transits(Mending(Transitioning(goal, AfterRepair), JOURNAL), 3, Repairs(Transitioning(goal, AfterRepair)), GOOD,
             goal, AfterRepair,
             Stay(Repairs(Clearing(ClearRepair))), Mending(Clearing(ClearRepair), JOURNAL));
  }

  lemma RemovesJournal()
    ensures Reachable(Mending(ClearingPending(ClearRepair), None))
  {
    Clears(SuccessGoal(Repairs(Repairing)));
    Exits(Mending(Clearing(ClearRepair), JOURNAL), 3, Repairs(Clearing(ClearRepair)), GOOD,
          Replace(None, Repairs(ClearingPending(ClearRepair))), Mending(ClearingPending(ClearRepair), None));
  }

  /** The repair is about to leave, the barrier open again. */
  function Mended(): World {
    After(Spent(false, false, Some(3), {1, 2}, 6), None, WAITING, {2}, map[3 := Repairs(Releasing)], 4)
  }

  /** Open for business, nothing on disk but a record that waits for recovery. */
  function Stranded(): World {
    After(Spent(false, false, None, {1, 2, 3}, 7), None, WAITING, {2}, map[], 4)
  }

  lemma Reopens()
    ensures Reachable(Mended())
  {
    RemovesJournal();
    Exits(Mending(ClearingPending(ClearRepair), None), 3, Repairs(ClearingPending(ClearRepair)), GOOD,
          Coordinate(Mended().c, Repairs(Releasing)), Mended());
  }

  lemma StrandedIsReachable()
    ensures Reachable(Stranded())
  {
    Reopens();
    Exits(Mended(), 3, Repairs(Releasing), GOOD, Depart(Stranded().c), Stranded());
  }

  /** Nothing on disk but the record, nobody at work, every flag down. */
  predicate Forgotten(v: World, id: string) {
    && v.up && v.journal.None? && !v.marker && v.threads == map[] && v.leaked == {}
    && !v.c.closed && !v.c.settlementPending && !v.c.journalPending
    && id in v.st.operations && v.st.operations[id].status.RecoveryRequired?
  }

  /** The exception for raced promotions is real: a run from the first start-up
      ends with the barrier open, no flag raised, no journal and nobody at work,
      and yet a record still waits for recovery. */
  lemma RecoveryCanBeForgotten()
    ensures exists w, id :: Reachable(w) && Forgotten(w, id)
  {
    StrandedIsReachable();
    assert Forgotten(Stranded(), Hex(32));
  }

  // ------------------------------------------------ The flag that stays up

  function Raised(): C.Coord {
    Open(Some(1), None).(journalPending := true, broadcasts := 3)
  }

  /** The mutation with its journal on disk and the flag raised. */
  function Flagged(pc: PC, journal: Option<Journal>): World {
    Scene(Raised(), journal, NOTHING, map[1 := Mutating(pc)], 2)
  }

  lemma WritesJournal()
    ensures Reachable(Begun().(journal := JOURNAL, threads := map[1 := Mutating(MarkingJournal)]))
  {
    BegunIsReachable();
    Serves(Begun(), 1, Mutating(Working), GOOD, Replace(JOURNAL, Mutating(MarkingJournal)),
           Begun().(journal := JOURNAL, threads := map[1 := Mutating(MarkingJournal)]));
  }

  lemma RaisesFlag()
    ensures Reachable(Flagged(Journaled, JOURNAL))
  {
    WritesJournal();
    Serves(Begun().(journal := JOURNAL, threads := map[1 := Mutating(MarkingJournal)]), 1, Mutating(MarkingJournal),
           GOOD,
           Coordinate(Flagged(Journaled, JOURNAL).c, Mutating(Journaled)), Flagged(Journaled, JOURNAL));
  }

  lemma IsDone()
    ensures Reachable(Flagged(Clearing(ClearMutation), JOURNAL))
  {
    RaisesFlag();
    Serves(Flagged(Journaled, JOURNAL), 1, Mutating(Journaled), GOOD,
           Stay(Mutating(Clearing(ClearMutation))), Flagged(Clearing(ClearMutation), JOURNAL));
  }

  lemma LosesTheSync()
    ensures Reachable(Flagged(Releasing, None))
  {
    IsDone();
    Exits(Flagged(Clearing(ClearMutation), JOURNAL), 1, Mutating(Clearing(ClearMutation)), UNSYNCED,
          Replace(None, Mutating(Releasing)), Flagged(Releasing, None));
  }

  function Jammed(): World {
    Scene(Open(None, None).(journalPending := true, closed := true, cancelled := {1}, broadcasts := 4), None, NOTHING,
          map[], 2)
  }

  lemma JammedIsReachable()
    ensures Reachable(Jammed())
  {
    LosesTheSync();
    Exits(Flagged(Releasing, None), 1, Mutating(Releasing), GOOD, Depart(Jammed().c), Jammed());
  }

  /** From a reachable state with an honest flag, one event breaks it. */
  ghost predicate Breaking(w: World, e: Event, v: World) {
    Reachable(w) && Honest(w) && Steps(w, e, v) && e.Act? && e.t in w.threads && Wedged(v)
  }

  lemma BreaksFor(w: World, t: nat, th: Thread, ch: Choice)
    requires Reachable(w) && Calm(w) && Honest(w) && t in w.threads && th == w.threads[t] && Fresh(w, ch.token)
    requires ch.http == 500
    requires MergesStale(w, th) || LosesSync(w, th, ch)
    ensures Breaking(w, Act(t, ch), Apply(w, Act(t, ch)))
  {
    var ws, es :| Run(ws, es) && ws[|es|] == w;
    ReachableIsSafe(ws, es, |es|);
    BreakingWedges(w, Apply(w, Act(t, ch)), Act(t, ch));
  }

  /** The first way into the wedge: a removal whose sync fails. It ends with the
      barrier closed, nobody at work and no journal, marker or settlement flag. */
  lemma UnsyncedRemovalWedges()
    ensures exists w, e, v :: Breaking(w, e, v) && LosesSync(w, w.threads[e.t], e.ch)
    ensures exists v ::
      Reachable(v) && Wedged(v) && v.threads == map[] && v.c.closed && !v.marker && !v.c.settlementPending
  {
    IsDone();
    BreaksFor(Flagged(Clearing(ClearMutation), JOURNAL), 1, Mutating(Clearing(ClearMutation)), UNSYNCED);
    JammedIsReachable();
    assert Wedged(Jammed());
  }

  // ------------------------------------- A sight of the journal that is stale

  function Sighted(pc: PC): Thread {
    Creator(pc, false, "").(sawJournal := pc.AwaitPrepare?)
  }

  /** The mutation clears its journal while the create has read that it is there. */
  function Watched(c: C.Coord, journal: Option<Journal>, own: PC, pc: PC): World {
    Scene(c, journal, NOTHING, map[1 := Mutating(own), 2 := Sighted(pc)], 3)
  }

  lemma Watches()
    ensures Reachable(Watched(Raised(), JOURNAL, Clearing(ClearMutation), FirstLookup))
  {
    IsDone();
    Goes(Flagged(Clearing(ClearMutation), JOURNAL), Request(Creation()),
         Watched(Raised(), JOURNAL, Clearing(ClearMutation), FirstLookup));
  }

  lemma WatcherReads()
    ensures Reachable(Watched(Raised(), JOURNAL, Clearing(ClearMutation), ReadFiles))
  {
    Watches();
    Admits(Watched(Raised(), JOURNAL, Clearing(ClearMutation), FirstLookup), 2, Sighted(FirstLookup), GOOD,
           Stay(Sighted(ReadFiles)), Watched(Raised(), JOURNAL, Clearing(ClearMutation), ReadFiles));
  }

  lemma WatcherSees()
    ensures Reachable(Watched(Raised(), JOURNAL, Clearing(ClearMutation), AwaitPrepare(true)))
  {
    WatcherReads();
    Admits(Watched(Raised(), JOURNAL, Clearing(ClearMutation), ReadFiles), 2, Sighted(ReadFiles), GOOD,
           Stay(Sighted(AwaitPrepare(true))), Watched(Raised(), JOURNAL, Clearing(ClearMutation), AwaitPrepare(true)));
  }

  lemma OwnerRemoves()
    ensures Reachable(Watched(Raised(), None, ClearingPending(ClearMutation), AwaitPrepare(true)))
  {
    WatcherSees();
    Exits(Watched(Raised(), JOURNAL, Clearing(ClearMutation), AwaitPrepare(true)), 1, Mutating(Clearing(ClearMutation)),
          GOOD, Replace(None, Mutating(ClearingPending(ClearMutation))),
          Watched(Raised(), None, ClearingPending(ClearMutation), AwaitPrepare(true)));
  }

  function Lowered(): C.Coord {
    Open(Some(1), None).(broadcasts := 4)
  }

  lemma OwnerLowers()
    ensures Reachable(Watched(Lowered(), None, Releasing, AwaitPrepare(true)))
  {
    OwnerRemoves();
    Exits(Watched(Raised(), None, ClearingPending(ClearMutation), AwaitPrepare(true)), 1,
          Mutating(ClearingPending(ClearMutation)), GOOD,
          Coordinate(Lowered(), Mutating(Releasing)), Watched(Lowered(), None, Releasing, AwaitPrepare(true)));
  }

  /** The owner is gone and its journal with it; the create still believes in it. */
  function Believing(): World {
    Scene(Open(None, None).(cancelled := {1}, broadcasts := 5), None, NOTHING, map[2 := Sighted(AwaitPrepare(true))], 3)
  }

  lemma OwnerLeaves()
    ensures Reachable(Believing())
  {
    OwnerLowers();
    Exits(Watched(Lowered(), None, Releasing, AwaitPrepare(true)), 1, Mutating(Releasing), GOOD, Depart(Believing().c),
          Believing());
  }

  /** The second way: a request merges a sight of a journal that is gone. */
  lemma StaleMergeIsReachable()
    ensures exists w, e, v :: Breaking(w, e, v) && MergesStale(w, w.threads[e.t])
  {
    OwnerLeaves();
    BreaksFor(Believing(), 2, Sighted(AwaitPrepare(true)), GOOD);
  }
}
