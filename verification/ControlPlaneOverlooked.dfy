/** A run, with the real job table, in which a reservation is overlooked: a create
    ends in need of recovery, a repair settles it, its record expires, and the
    create is asked for again under the same operation. */
module ControlPlaneOverlooked {
  import opened Lifecycle
  import opened ControlPlane
  import opened ControlPlaneInvariant
  import opened ControlPlaneTheorems
  import opened ControlPlaneJobs
  import C = Coordination
  import J = JobTable
  import S = OperationStore

  const JOBS := J.Limits(8, 1000)
  const LIMITS := S.Limits(8, 1000)

  ghost predicate Reached(w: World, tab: J.Table) {
    exists r :: Backed(r) && r.limits == JOBS && r.ws[|r.es|] == w && r.tabs[|r.es|] == tab
  }

  function Extended(r: Trace, e: Event, v: World, after: J.Table): Trace {
    r.(ws := r.ws + [v], es := r.es + [e], tabs := r.tabs + [after], asides := r.asides + [[]])
  }

  lemma ExtendedIsBacked(r: Trace, e: Event, v: World, after: J.Table)
    requires Backed(r) && BackedStep(r.ws[|r.es|], r.tabs[|r.es|], r.limits, [], e, v, after)
    ensures Backed(Extended(r, e, v, after))
  {
    var u := Extended(r, e, v, after);
    forall k | 0 <= k < |u.es| ensures BackedAt(u, k) {
      if k < |r.es| { assert BackedAt(r, k); }
    }
  }

  lemma Goes(w: World, tab: J.Table, e: Event, v: World)
    requires Reached(w, tab) && Steps(w, e, v) && Agrees(w, tab, JOBS, e)
    ensures Reached(v, TableAfter(w, tab, JOBS, e))
  {
    LastIsBacked(w, tab, e, v, TableAfter(w, tab, JOBS, e));
    Lands(w, tab, e, v, TableAfter(w, tab, JOBS, e));
  }

  lemma Lands(w: World, tab: J.Table, e: Event, v: World, after: J.Table)
    requires Reached(w, tab) && BackedStep(w, tab, JOBS, [], e, v, after)
    ensures Reached(v, after)
  {
    var r :| Backed(r) && r.limits == JOBS && r.ws[|r.es|] == w && r.tabs[|r.es|] == tab;
    ExtendedIsBacked(r, e, v, after);
    var u := Extended(r, e, v, after);
    assert u.limits == JOBS && u.ws[|u.es|] == v && u.tabs[|u.es|] == after;
  }

  lemma LastIsBacked(w: World, tab: J.Table, e: Event, v: World, after: J.Table)
    requires Steps(w, e, v) && Agrees(w, tab, JOBS, e) && after == TableAfter(w, tab, JOBS, e)
    ensures BackedStep(w, tab, JOBS, [], e, v, after)
  {
    assert J.Run(tab, JOBS, []) == tab;
  }

  // ----------------------------------------------------- One thread at a time

  /** Only this thread is there. */
  function Solo(w: World, th: Thread): World {
    w.(threads := map[th.request.id := th], next := th.request.id + 1)
  }

  function Gone(w: World, id: nat): World {
    w.(threads := map[], next := id + 1)
  }

  function Choose(now: nat, pick: nat, outcome: WriteOutcome): Choice {
    Choice(now, outcome, true, pick, 500, "spare", "job")
  }

  const GOOD := Choose(1, 0, Persisted)

  predicate Calm(w: World, th: Thread) {
    && w.up && w.sleeping == map[] && w.author.Keys == w.st.operations.Keys && w.st.file == w.st.operations
    && w.issued == {} && !Replaying(th)
  }

  /** The thread may take this step now, and the table answers as it says. */
  ghost predicate Turns(w: World, tab: J.Table, th: Thread, ch: Choice, step: Step, v: World) {
    && Reached(Solo(w, th), tab) && Calm(w, th) && JournalRetained(w, ch.now) && ch.token == "spare" && ch.http == 500
    && TableSays(Solo(w, th), tab, JOBS, th, ch)
    && v == Perform(Solo(w, th), th.request.id, step)
  }

  lemma Takes(w: World, tab: J.Table, th: Thread, ch: Choice, step: Step, v: World)
    requires Turns(w, tab, th, ch, step, v) && step == Next(Solo(w, th), th.request.id, ch)
    ensures Reached(v, J.Run(tab, JOBS, Calls(Solo(w, th), th, ch)))
  {
    MayAct(w, th, ch);
    Goes(Solo(w, th), tab, Act(th.request.id, ch), v);
  }

  lemma MayAct(w: World, th: Thread, ch: Choice)
    requires Calm(w, th) && JournalRetained(w, ch.now) && ch.token == "spare" && ch.http == 500
    ensures Enabled(Solo(w, th), Act(th.request.id, ch))
  {
  }

  lemma Admits(w: World, tab: J.Table, th: Thread, ch: Choice, step: Step, v: World)
    requires Turns(w, tab, th, ch, step, v) && Admitting(th.pc) && step == Admission(Solo(w, th), th, ch)
    ensures Reached(v, J.Run(tab, JOBS, Calls(Solo(w, th), th, ch)))
  {
    Takes(w, tab, th, ch, step, v);
  }

  lemma Serves(w: World, tab: J.Table, th: Thread, ch: Choice, step: Step, v: World)
    requires Turns(w, tab, th, ch, step, v) && Serving(th.pc) && step == Service(Solo(w, th), th.request.id, th, ch)
    ensures Reached(v, J.Run(tab, JOBS, Calls(Solo(w, th), th, ch)))
  {
    Takes(w, tab, th, ch, step, v);
  }

  lemma Exits(w: World, tab: J.Table, th: Thread, ch: Choice, step: Step, v: World)
    requires Turns(w, tab, th, ch, step, v) && Exiting(th.pc) && step == Exit(Solo(w, th), th.request.id, th, ch)
    ensures Reached(v, J.Run(tab, JOBS, Calls(Solo(w, th), th, ch)))
  {
    Takes(w, tab, th, ch, step, v);
  }

  lemma Transits(w: World, tab: J.Table, th: Thread, ch: Choice, goal: S.Goal, after: After, step: Step, v: World)
    requires Turns(w, tab, th, ch, step, v) && th.pc == Transitioning(goal, after)
    requires step == Transition(Solo(w, th), th, goal, after, ch)
    ensures Reached(v, tab)
  {
    Exits(w, tab, th, ch, step, v);
  }

  lemma RunsErrand(w: World, tab: J.Table, th: Thread, ch: Choice, step: Step, v: World)
    requires Turns(w, tab, th, ch, step, v) && !Admitting(th.pc) && !Serving(th.pc) && !Exiting(th.pc)
    requires step == Errand(Solo(w, th), th.request.id, th, ch)
    ensures Reached(v, tab)
  {
    Takes(w, tab, th, ch, step, v);
  }

  // ---------------------------------------------------- A create is reserved

  function Creating(p: C.Preparation, pc: PC, job: string): Thread {
    Thread(Requester, pc, p, false, false, false, true, 200, job)
  }

  /** Nothing stands in the way of the request. */
  predicate Rest(w: World, p: C.Preparation) {
    && Calm(w, Creating(p, FirstLookup, "")) && w.threads == map[] && !w.marker && w.journal.None?
    && w.c.active.None? && w.c.preparing.None? && !w.c.closed && !w.c.journalPending && !w.c.settlementPending
    && p.id == w.next && p.kind.CreateKind? && p.attempt == "" && !p.refused && p.operation != ""
    && p.operation !in w.st.operations
  }

  lemma Arrives(w: World, tab: J.Table, p: C.Preparation)
    requires Reached(w, tab) && Rest(w, p)
    ensures Reached(Solo(w, Creating(p, FirstLookup, "")), tab)
  {
    assert w.threads[p.id := Creating(p, FirstLookup, "")] == map[p.id := Creating(p, FirstLookup, "")];
    Goes(w, tab, Request(p), Solo(w, Creating(p, FirstLookup, "")));
  }

  lemma FindsNothing(w: World, tab: J.Table, p: C.Preparation)
    requires Reached(Solo(w, Creating(p, FirstLookup, "")), tab) && Rest(w, p)
    ensures Reached(Solo(w, Creating(p, ReadFiles, "")), tab)
  {
    Admits(w, tab, Creating(p, FirstLookup, ""), GOOD, Stay(Creating(p, ReadFiles, "")),
           Solo(w, Creating(p, ReadFiles, "")));
  }

  lemma ReadsFiles(w: World, tab: J.Table, p: C.Preparation)
    requires Reached(Solo(w, Creating(p, ReadFiles, "")), tab) && Rest(w, p)
    ensures Reached(Solo(w, Creating(p, AwaitPrepare(true), "")), tab)
  {
    Admits(w, tab, Creating(p, ReadFiles, ""), GOOD, Stay(Creating(p, AwaitPrepare(true), "")),
           Solo(w, Creating(p, AwaitPrepare(true), "")));
  }

  function Preparing(w: World, p: C.Preparation): World {
    w.(c := w.c.(preparing := Some(p)))
  }

  lemma Prepares(w: World, tab: J.Table, p: C.Preparation)
    requires Reached(Solo(w, Creating(p, AwaitPrepare(true), "")), tab) && Rest(w, p)
    ensures Reached(Solo(Preparing(w, p), Creating(p, SecondLookup, "")), tab)
  {
    assert p.(refused := false) == p;
    Admits(w, tab, Creating(p, AwaitPrepare(true), ""), GOOD,
           Coordinate(w.c.(preparing := Some(p)),
                      Creating(p, SecondLookup, "")), Solo(Preparing(w, p), Creating(p, SecondLookup, "")));
  }

  lemma LooksAgain(w: World, tab: J.Table, p: C.Preparation)
    requires Reached(Solo(Preparing(w, p), Creating(p, SecondLookup, "")), tab) && Rest(w, p)
    ensures Reached(Solo(Preparing(w, p), Creating(p, ReserveRecord, "")), tab)
  {
    Admits(Preparing(w, p), tab, Creating(p, SecondLookup, ""), GOOD, Stay(Creating(p, ReserveRecord, "")),
           Solo(Preparing(w, p), Creating(p, ReserveRecord, "")));
  }

  /** The record has been written by this request. */
  function Reserved(w: World, p: C.Preparation, st: S.Store, author: map<string, nat>): World {
    w.(c := w.c.(preparing := Some(p)), st := st, author := author)
  }

  lemma ReservationWrites(w: World, p: C.Preparation, now: nat, st: S.Store)
    requires S.Reserve(w.st, w.limits, Wanted(p), now, Persisted).0 == st
    requires S.Reserve(w.st, w.limits, Wanted(p), now, Persisted).1.Reserved?
    ensures Admission(Solo(Preparing(w, p), Creating(p, ReserveRecord, "")), Creating(p, ReserveRecord, ""),
                      Choose(now, 0, Persisted)) ==
            Write(st, Creating(p, ReserveJob, ""))
  {
  }

  lemma Reserves(w: World, tab: J.Table, p: C.Preparation, now: nat, st: S.Store, author: map<string, nat>)
    requires Reached(Solo(Preparing(w, p), Creating(p, ReserveRecord, "")), tab) && Rest(w, p)
    requires S.Reserve(w.st, w.limits, Wanted(p), now, Persisted).0 == st
    requires S.Reserve(w.st, w.limits, Wanted(p), now, Persisted).1.Reserved?
    requires author == Authors(Solo(Preparing(w, p), Creating(p, ReserveRecord, "")), p.id, st)
    ensures Reached(Solo(Reserved(w, p, st, author), Creating(p, ReserveJob, "")), tab)
  {
    ReservationWrites(w, p, now, st);
    Admits(Preparing(w, p), tab, Creating(p, ReserveRecord, ""), Choose(now, 0, Persisted),
           Write(st, Creating(p, ReserveJob, "")),
           Solo(Reserved(w, p, st, author), Creating(p, ReserveJob, "")));
  }

  /** From its arrival to its reservation. */
  lemma IsReserved(w: World, tab: J.Table, p: C.Preparation, now: nat, st: S.Store, author: map<string, nat>)
    requires Reached(w, tab) && Rest(w, p)
    requires S.Reserve(w.st, w.limits, Wanted(p), now, Persisted).0 == st
    requires S.Reserve(w.st, w.limits, Wanted(p), now, Persisted).1.Reserved?
    requires author == Authors(Solo(Preparing(w, p), Creating(p, ReserveRecord, "")), p.id, st)
    ensures Reached(Solo(Reserved(w, p, st, author), Creating(p, ReserveJob, "")), tab)
  {
    Arrives(w, tab, p);
    FindsNothing(w, tab, p);
    ReadsFiles(w, tab, p);
    Prepares(w, tab, p);
    LooksAgain(w, tab, p);
    Reserves(w, tab, p, now, st, author);
  }

  // -------------------------------------- The first create, up to its failure

  function Digits(c: char, n: nat): string {
    seq(n, _ => c)
  }

  const OPERATION := Digits('a', 32)
  const OTHER := Digits('b', 32)
  const FINGERPRINT := Digits('a', 64)

  function Create(id: nat, operation: string): C.Preparation {
    C.Preparation(id, CreateKind, operation, "a", FINGERPRINT, "", false)
  }

  function Record(operation: string, status: Status, http: int, message: Message, at: nat): S.Record {
    S.Record(operation, CreateKind, "a", FINGERPRINT, status, http, message, at, at)
  }

  function Holding(r: S.Record): S.Store {
    S.Store(map[r.id := r], map[], map[r.id := r])
  }

  function Job(status: Status): J.Table {
    J.Table(map["job" := J.Job(status, 0, OPERATION, FINGERPRINT, false, NoMessage)], map[OPERATION := "job"])
  }

  function Section(closed: bool, flagged: bool, active: Option<nat>, cancelled: set<nat>, spent: set<nat>,
                   broadcasts: nat): C.Coord {
    C.Coord(closed, flagged, active, None, false, None, cancelled, spent, broadcasts)
  }

  function Scene(c: C.Coord, journal: Option<Journal>, st: S.Store, author: map<string, nat>, started: set<nat>,
                 leaked: set<nat>, next: nat): World {
    World(true, c, false, journal, st, LIMITS, map[], map[], next, author, started, leaked, {}, {}, {})
  }

  const NOTHING := S.Store(map[], map[], map[])
  const PENDING := Record(OPERATION, Pending, 0, NoMessage, 1)
  const RUNNING := Record(OPERATION, Running, 202, NoMessage, 1)
  const WAITING := Record(OPERATION, RecoveryRequired, 202, RecoveryMessage, 1)
  const REPAIRED := Record(OPERATION, Cancelled, 409, CancelledMessage, 1)

  function First(c: C.Coord, journal: Option<Journal>, r: S.Record, started: set<nat>): World {
    Scene(c, journal, Holding(r), map[OPERATION := 0], started, {}, 0)
  }

  function Fresh0(): World {
    Scene(C.Startup(false, false), None, NOTHING, map[], {}, {}, 0)
  }

  lemma FreshIsReached()
    ensures Reached(Fresh0(), NO_JOBS)
  {
    var w := Fresh0().(up := false);
    var r := Trace(JOBS, [w], [], [NO_JOBS], []);
    assert Backed(r) && r.ws[|r.es|] == w && r.tabs[|r.es|] == NO_JOBS;
    Goes(w, NO_JOBS, Restart(1, Persisted, 1, Persisted), Fresh0());
  }

  function Prepared(): C.Coord {
    Section(false, false, None, {}, {}, 0).(preparing := Some(Create(0, OPERATION)))
  }

  lemma FirstReservation()
    ensures S.Reserve(NOTHING, LIMITS, Wanted(Create(0, OPERATION)), 1, Persisted) ==
        (Holding(PENDING), S.Reserved(PENDING))
  {
  }

  lemma FirstIsReserved()
    ensures Reached(Solo(First(Prepared(), None, PENDING, {}), Creating(Create(0, OPERATION), ReserveJob, "")), NO_JOBS)
  {
    FreshIsReached();
    FirstReservation();
    IsReserved(Fresh0(), NO_JOBS, Create(0, OPERATION), 1, Holding(PENDING), map[OPERATION := 0]);
  }

  lemma TakesJob()
    ensures Reached(Solo(First(Prepared(), None, PENDING, {}), Creating(Create(0, OPERATION), ReadFilesAgain, "job")),
                    Job(Pending))
  {
    FirstIsReserved();
    JobIsNew();
    Admits(First(Prepared(), None, PENDING, {}), NO_JOBS, Creating(Create(0, OPERATION), ReserveJob, ""), GOOD,
           Stay(Creating(Create(0, OPERATION), ReadFilesAgain, "job")),
           Solo(First(Prepared(), None, PENDING, {}), Creating(Create(0, OPERATION), ReadFilesAgain, "job")));
  }

  lemma JobIsNew()
    ensures J.Reserve(NO_JOBS, JOBS, OPERATION, FINGERPRINT, ["job"], 1) == (Job(Pending), J.NewJob("job"))
    ensures J.Run(NO_JOBS, JOBS, [J.ReserveCall(OPERATION, FINGERPRINT, ["job"], 1)]) == Job(Pending)
  {
    var none: map<string, string> := map[];
    assert none - {OPERATION} == none;
    assert J.Prune(NO_JOBS, 1, 1000) == NO_JOBS;
    assert ["job"][0] == "job";
    OneCall(NO_JOBS, J.ReserveCall(OPERATION, FINGERPRINT, ["job"], 1));
  }

  lemma OneCall(tab: J.Table, call: J.Call)
    ensures J.Run(tab, JOBS, [call]) == J.Step(tab, JOBS, call)
  {
    assert [call][..0] == [];
    assert J.Run(tab, JOBS, [call][..0]) == tab;
  }

  lemma AwaitsPromotion()
    ensures Reached(Solo(First(Prepared(), None, PENDING, {}),
                         Creating(Create(0, OPERATION), AwaitPromote(true), "job")), Job(Pending))
  {
    TakesJob();
    Serves(First(Prepared(), None, PENDING, {}), Job(Pending), Creating(Create(0, OPERATION), ReadFilesAgain, "job"),
           GOOD,
           Stay(Creating(Create(0, OPERATION), AwaitPromote(true), "job")),
           Solo(First(Prepared(), None, PENDING, {}), Creating(Create(0, OPERATION), AwaitPromote(true), "job")));
  }

  function Working(pc: PC): Thread {
    Creating(Create(0, OPERATION), pc, "job").(leased := true)
  }

  function Promoted(): C.Coord {
    Section(false, false, Some(0), {}, {0}, 1)
  }

  lemma PromotionIsGranted()
    ensures C.PromoteTurn(Prepared(), Create(0, OPERATION), "job", true) == (Promoted(), C.Granted)
  {
    var none: set<nat> := {};
    assert none + {0} == {0};
  }

  lemma PromotionServes()
    ensures var w := Solo(First(Prepared(), None, PENDING, {}),
                          Creating(Create(0, OPERATION), AwaitPromote(true), "job"));
      var th := Creating(Create(0, OPERATION), AwaitPromote(true), "job");
      Service(w, 0, th, GOOD) == Coordinate(Promoted(), Working(Admitted)) && Calls(w, th, GOOD) == [J.ClaimCall("job")]
  {
    PromotionIsGranted();
  }

  lemma PromotionPerforms()
    ensures Perform(Solo(First(Prepared(), None, PENDING, {}),
                         Creating(Create(0, OPERATION), AwaitPromote(true), "job")), 0,
                    Coordinate(Promoted(), Working(Admitted))) ==
            Solo(First(Promoted(), None, PENDING, {}), Working(Admitted))
  {
  }

  lemma IsPromoted()
    ensures Reached(Solo(First(Promoted(), None, PENDING, {}), Working(Admitted)), Job(Running))
  {
    AwaitsPromotion();
    OneCall(Job(Pending), J.ClaimCall("job"));
    PromotionServes();
    PromotionPerforms();
    Serves(First(Prepared(), None, PENDING, {}), Job(Pending),
           Creating(Create(0, OPERATION), AwaitPromote(true), "job"), GOOD,
           Coordinate(Promoted(), Working(Admitted)), Solo(First(Promoted(), None, PENDING, {}), Working(Admitted)));
  }

  lemma Starts()
    ensures Reached(Solo(First(Promoted(), None, PENDING, {}), Working(Transitioning(RUNNING_GOAL, AfterStart))),
                    Job(Running))
  {
    IsPromoted();
    Serves(First(Promoted(), None, PENDING, {}), Job(Running), Working(Admitted), GOOD,
           Stay(Working(Transitioning(RUNNING_GOAL, AfterStart))),
           Solo(First(Promoted(), None, PENDING, {}), Working(Transitioning(RUNNING_GOAL, AfterStart))));
  }

  lemma MovesTo(r: S.Record, goal: S.Goal, now: nat, moved: S.Record)
    requires S.ValidRecord(r) && !IsTerminal(r.status) && moved == S.Apply(r, goal, now) && S.ValidRecord(moved)
    ensures S.Transition(Holding(r), LIMITS, r.id, goal, now, Persisted) == (Holding(moved), S.Moved(moved))
  {
    assert S.Prune(map[r.id := r], now, 1000)[r.id := moved] == map[r.id := moved];
    var none: S.Records := map[];
    assert none - {r.id} == none;
  }

  /** The record of the first create moves on, under whoever transits it. */
  lemma RecordMoves(c: C.Coord, journal: Option<Journal>, tab: J.Table, th: Thread, goal: S.Goal, after: After,
                    next: Thread,
                    r: S.Record, moved: S.Record, started: set<nat>)
    requires Reached(Solo(First(c, journal, r, started), th), tab) && Calm(First(c, journal, r, started), th)
    requires th.pc == Transitioning(goal, after) && th.request.operation == OPERATION && r.id == OPERATION
    requires S.ValidRecord(r) && !IsTerminal(r.status) && moved == S.Apply(r, goal, 1) && S.ValidRecord(moved)
    requires next == Resume(th, goal, after, true)
    ensures Reached(Solo(First(c, journal, moved, if next.pc.Working? then started + {th.request.id} else started),
                         next), tab)
  {
    MovesTo(r, goal, 1, moved);
    WritesRecord(c, journal, th, next, r, moved, started);
    Transits(First(c, journal, r, started), tab, th, GOOD, goal, after, Write(Holding(moved), next),
             Solo(First(c, journal, moved, if next.pc.Working? then started + {th.request.id} else started), next));
  }

  lemma WritesRecord(c: C.Coord, journal: Option<Journal>, th: Thread, next: Thread, r: S.Record, moved: S.Record,
                     started: set<nat>)
    requires next.request.id == th.request.id && r.id == moved.id == OPERATION
    ensures Perform(Solo(First(c, journal, r, started), th), th.request.id, Write(Holding(moved), next)) ==
            Solo(First(c, journal, moved, if next.pc.Working? then started + {th.request.id} else started), next)
  {
    AuthorsStay(Solo(First(c, journal, r, started), th), th.request.id, r, moved);
  }

  lemma AuthorsStay(w: World, t: nat, r: S.Record, moved: S.Record)
    requires w.st == Holding(r) && w.author == map[r.id := 0] && moved.id == r.id
    ensures Authors(w, t, Holding(moved)) == w.author
  {
  }

  lemma Works()
    ensures Reached(Solo(First(Promoted(), None, RUNNING, {0}), Working(PC.Working)), Job(Running))
  {
    Starts();
    RecordMoves(Promoted(), None, Job(Running), Working(Transitioning(RUNNING_GOAL, AfterStart)), RUNNING_GOAL,
                AfterStart,
                Working(PC.Working), PENDING, RUNNING, {});
  }

  const JOURNAL := Some(Journal(OPERATION, 0))

  lemma LeavesJournal()
    ensures Reached(Solo(First(Promoted(), JOURNAL, RUNNING, {0}), Working(Judging)), Job(Running))
  {
    Works();
    Serves(First(Promoted(), None, RUNNING, {0}), Job(Running), Working(PC.Working), Choose(1, 0, CommittedUnsynced),
           Replace(JOURNAL, Working(Judging)), Solo(First(Promoted(), JOURNAL, RUNNING, {0}), Working(Judging)));
  }

  lemma Judges()
    ensures Reached(Solo(First(Promoted(), JOURNAL, RUNNING, {0}), Working(Transitioning(RECOVERY_GOAL, AfterWork))),
                    Job(Running))
  {
    LeavesJournal();
    Serves(First(Promoted(), JOURNAL, RUNNING, {0}), Job(Running), Working(Judging), GOOD,
           Stay(Working(Transitioning(RECOVERY_GOAL, AfterWork))),
           Solo(First(Promoted(), JOURNAL, RUNNING, {0}), Working(Transitioning(RECOVERY_GOAL, AfterWork))));
  }

  lemma GivesUp()
    ensures Reached(Solo(First(Promoted(), JOURNAL, WAITING, {0}), Working(Releasing)), Job(Running))
  {
    Judges();
    RecordMoves(Promoted(), JOURNAL, Job(Running), Working(Transitioning(RECOVERY_GOAL, AfterWork)), RECOVERY_GOAL,
                AfterWork,
                Working(Releasing), RUNNING, WAITING, {0});
  }

  /** The worker has left its job in need of recovery, and its journal on disk. */
  function Failed0(): World {
    Gone(First(Section(true, false, None, {0}, {0}, 2), JOURNAL, WAITING, {0}), 0)
  }

  lemma WorkerFinishes()
    ensures J.Run(Job(Running), JOBS,
                  Calls(Solo(First(Promoted(), JOURNAL, WAITING, {0}), Working(Releasing)), Working(Releasing),
                        GOOD)) ==
            Job(RecoveryRequired)
  {
    var call := J.FinishCall("job", RecoveryRequired, NoMessage, 1);
    OneCall(Job(Running), call);
    assert Calls(Solo(First(Promoted(), JOURNAL, WAITING, {0}), Working(Releasing)), Working(Releasing),
                 GOOD) == [call];
  }

  lemma FailedIsReached()
    ensures Reached(Failed0(), Job(RecoveryRequired))
  {
    GivesUp();
    WorkerFinishes();
    Exits(First(Promoted(), JOURNAL, WAITING, {0}), Job(Running), Working(Releasing), GOOD, Depart(Failed0().c),
          Failed0());
  }

  // ------------------------------------------------------------ It is repaired

  function Repairing(pc: PC, operation: string): Thread {
    Thread(Repairer, pc, Blank(1).(operation := operation), !pc.AwaitRecovery?, false, false, true, 200, "")
  }

  function Mended(c: C.Coord, journal: Option<Journal>, r: S.Record): World {
    First(c, journal, r, {0})
  }

  function UnderRepair(): C.Coord {
    Section(true, true, Some(1), {0}, {0}, 2)
  }

  lemma AsksForRepair()
    ensures Reached(Solo(Mended(Failed0().c, JOURNAL, WAITING), Repairing(AwaitRecovery, "")), Job(RecoveryRequired))
  {
    FailedIsReached();
    Goes(Failed0(), Job(RecoveryRequired), Repair,
         Solo(Mended(Failed0().c, JOURNAL, WAITING), Repairing(AwaitRecovery, "")));
  }

  lemma BeginsRepair()
    ensures Reached(Solo(Mended(UnderRepair(), JOURNAL, WAITING), Repairing(ReadingJournal, "")), Job(RecoveryRequired))
  {
    AsksForRepair();
    RunsErrand(Mended(Failed0().c, JOURNAL, WAITING), Job(RecoveryRequired), Repairing(AwaitRecovery, ""), GOOD,
               Coordinate(UnderRepair(), Repairing(ReadingJournal, "")),
               Solo(Mended(UnderRepair(), JOURNAL, WAITING), Repairing(ReadingJournal, "")));
  }

  lemma FindsTheLink()
    ensures Reached(Solo(Mended(UnderRepair(), JOURNAL, WAITING), Repairing(CheckingLink, OPERATION)),
                    Job(RecoveryRequired))
  {
    BeginsRepair();
    RunsErrand(Mended(UnderRepair(), JOURNAL, WAITING), Job(RecoveryRequired), Repairing(ReadingJournal, ""), GOOD,
               Stay(Repairing(CheckingLink, OPERATION)),
               Solo(Mended(UnderRepair(), JOURNAL, WAITING), Repairing(CheckingLink, OPERATION)));
  }

  lemma FindsTheRecord()
    ensures Reached(Solo(Mended(UnderRepair(), JOURNAL, WAITING), Repairing(PC.Repairing, OPERATION)),
                    Job(RecoveryRequired))
  {
    FindsTheLink();
    RunsErrand(Mended(UnderRepair(), JOURNAL, WAITING), Job(RecoveryRequired), Repairing(CheckingLink, OPERATION), GOOD,
               Stay(Repairing(PC.Repairing, OPERATION)),
               Solo(Mended(UnderRepair(), JOURNAL, WAITING), Repairing(PC.Repairing, OPERATION)));
  }

  lemma Repairs()
    ensures Reached(Solo(Mended(UnderRepair(), JOURNAL, WAITING),
                         Repairing(Transitioning(CANCELLED_GOAL, AfterRepair), OPERATION)), Job(RecoveryRequired))
  {
    FindsTheRecord();
    RunsErrand(Mended(UnderRepair(), JOURNAL, WAITING), Job(RecoveryRequired), Repairing(PC.Repairing, OPERATION),
               Choose(1, 1, Persisted),
               Stay(Repairing(Transitioning(CANCELLED_GOAL, AfterRepair), OPERATION)),
               Solo(Mended(UnderRepair(), JOURNAL, WAITING),
                    Repairing(Transitioning(CANCELLED_GOAL, AfterRepair), OPERATION)));
  }

  /** The create had not even written its env: the repair cancels it. */
  lemma IsCancelled()
    ensures Reached(Solo(Mended(UnderRepair(), JOURNAL, REPAIRED), Repairing(Clearing(ClearRepair), OPERATION)),
                    Job(RecoveryRequired))
  {
    Repairs();
    RecordMoves(UnderRepair(), JOURNAL, Job(RecoveryRequired),
                Repairing(Transitioning(CANCELLED_GOAL, AfterRepair), OPERATION), CANCELLED_GOAL, AfterRepair,
                Repairing(Clearing(ClearRepair), OPERATION), WAITING, REPAIRED, {0});
  }

  lemma RemovesJournal()
    ensures Reached(Solo(Mended(UnderRepair(), None, REPAIRED), Repairing(ClearingPending(ClearRepair), OPERATION)),
                    Job(RecoveryRequired))
  {
    IsCancelled();
    Exits(Mended(UnderRepair(), JOURNAL, REPAIRED), Job(RecoveryRequired), Repairing(Clearing(ClearRepair), OPERATION),
          GOOD,
          Replace(None, Repairing(ClearingPending(ClearRepair), OPERATION)),
          Solo(Mended(UnderRepair(), None, REPAIRED), Repairing(ClearingPending(ClearRepair), OPERATION)));
  }

  function Lowered(): C.Coord {
    Section(false, false, Some(1), {0}, {0}, 3)
  }

  lemma LowersFlag()
    ensures Reached(Solo(Mended(Lowered(), None, REPAIRED), Repairing(Releasing, OPERATION)), Job(RecoveryRequired))
  {
    RemovesJournal();
    Exits(Mended(UnderRepair(), None, REPAIRED), Job(RecoveryRequired),
          Repairing(ClearingPending(ClearRepair), OPERATION), GOOD,
          Coordinate(Lowered(), Repairing(Releasing, OPERATION)),
          Solo(Mended(Lowered(), None, REPAIRED), Repairing(Releasing, OPERATION)));
  }

  /** The operation is settled; its job has not been told. */
  function Done0(): World {
    Gone(Mended(Section(false, false, None, {0, 1}, {0}, 4), None, REPAIRED), 1)
  }

  lemma DoneIsReached()
    ensures Reached(Done0(), Job(RecoveryRequired))
  {
    LowersFlag();
    Exits(Mended(Lowered(), None, REPAIRED), Job(RecoveryRequired), Repairing(Releasing, OPERATION), GOOD,
          Depart(Done0().c), Done0());
  }

  // ------------------------- Another create drops the expired record, and fails

  const LATER: nat := 2000
  const ANOTHER := Record(OTHER, Pending, 0, NoMessage, LATER)
  const REFUSED := Record(OTHER, Failed, 500, CreatePreparationFailed, LATER)

  lemma AnotherReservation()
    ensures S.Reserve(Holding(REPAIRED), LIMITS, Wanted(Create(2, OTHER)), LATER, Persisted) ==
        (Holding(ANOTHER), S.Reserved(ANOTHER))
  {
    assert OPERATION[0] == 'a' && OTHER[0] == 'b';
    assert S.Prune(map[OPERATION := REPAIRED], LATER, 1000) == map[];
  }

  function Second(c: C.Coord, r: S.Record): World {
    Scene(c, None, Holding(r), map[OTHER := 2], {0}, {}, 2)
  }

  function Waiting(c: C.Coord, id: nat, operation: string): C.Coord {
    c.(preparing := Some(Create(id, operation)))
  }

  lemma AnotherIsReserved()
    ensures Reached(Solo(Second(Waiting(Done0().c, 2, OTHER), ANOTHER), Creating(Create(2, OTHER), ReserveJob, "")),
                    Job(RecoveryRequired))
  {
    DoneIsReached();
    AnotherReservation();
    assert OPERATION[0] == 'a' && OTHER[0] == 'b';
    assert Rest(Done0(), Create(2, OTHER));
    assert Authors(Solo(Preparing(Done0(), Create(2, OTHER)), Creating(Create(2, OTHER), ReserveRecord, "")), 2,
                   Holding(ANOTHER)) == map[OTHER := 2];
    IsReserved(Done0(), Job(RecoveryRequired), Create(2, OTHER), LATER, Holding(ANOTHER), map[OTHER := 2]);
  }

  lemma LookupsKeepTheJob()
    ensures J.Run(Job(RecoveryRequired), JOBS, [J.LookupCall(LATER)]) == Job(RecoveryRequired)
    ensures J.Run(Job(RecoveryRequired), JOBS, [J.DiscardCall("")]) == Job(RecoveryRequired)
    ensures J.Prune(Job(RecoveryRequired), LATER, 1000) == Job(RecoveryRequired)
  {
    OneCall(Job(RecoveryRequired), J.LookupCall(LATER));
    OneCall(Job(RecoveryRequired), J.DiscardCall(""));
  }

  function Refusing(pc: PC): Thread {
    Creating(Create(2, OTHER), pc, "").(http := 500)
  }

  lemma GetsNoJob()
    ensures Reached(Solo(Second(Waiting(Done0().c, 2, OTHER), ANOTHER), Refusing(Settling)), Job(RecoveryRequired))
  {
    AnotherIsReserved();
    LookupsKeepTheJob();
    NoOtherJob();
    Admits(Second(Waiting(Done0().c, 2, OTHER), ANOTHER), Job(RecoveryRequired),
           Creating(Create(2, OTHER), ReserveJob, ""),
           Choose(LATER, 1, Persisted), Stay(Refusing(Settling)),
           Solo(Second(Waiting(Done0().c, 2, OTHER), ANOTHER), Refusing(Settling)));
  }

  lemma NoOtherJob()
    ensures !J.Reserve(Job(RecoveryRequired), JOBS, OTHER, FINGERPRINT, ["job"], LATER).1.ExistingJob?
  {
    assert OPERATION[0] == 'a' && OTHER[0] == 'b';
  }

  const REFUSAL := S.Goal(Failed, 500, CreatePreparationFailed)

  lemma RejectionFollows()
    ensures var w := Solo(Second(Waiting(Done0().c, 2, OTHER), ANOTHER), Refusing(Settling));
      && Exit(w, 2, Refusing(Settling), GOOD) == Stay(Refusing(Transitioning(REFUSAL, AfterReject)))
      && J.Run(Job(RecoveryRequired), JOBS, Calls(w, Refusing(Settling), GOOD)) == Job(RecoveryRequired)
  {
    LookupsKeepTheJob();
  }

  lemma IsRejected()
    ensures Reached(Solo(Second(Waiting(Done0().c, 2, OTHER), ANOTHER), Refusing(Transitioning(REFUSAL, AfterReject))),
                    Job(RecoveryRequired))
  {
    GetsNoJob();
    RejectionFollows();
    Exits(Second(Waiting(Done0().c, 2, OTHER), ANOTHER), Job(RecoveryRequired), Refusing(Settling), GOOD,
          Stay(Refusing(Transitioning(REFUSAL, AfterReject))),
          Solo(Second(Waiting(Done0().c, 2, OTHER), ANOTHER), Refusing(Transitioning(REFUSAL, AfterReject))));
  }

  lemma WritesRefusal()
    ensures Perform(Solo(Second(Waiting(Done0().c, 2, OTHER), ANOTHER), Refusing(Transitioning(REFUSAL, AfterReject))),
                    2,
                    Write(Holding(REFUSED), Refusing(Finishing))) ==
            Solo(Second(Waiting(Done0().c, 2, OTHER), REFUSED), Refusing(Finishing))
  {
    var w := Solo(Second(Waiting(Done0().c, 2, OTHER), ANOTHER), Refusing(Transitioning(REFUSAL, AfterReject)));
    assert Authors(w, 2, Holding(REFUSED)) == map[OTHER := 2];
  }

  lemma RefusalIsWritten()
    ensures Transition(Solo(Second(Waiting(Done0().c, 2, OTHER), ANOTHER),
                            Refusing(Transitioning(REFUSAL, AfterReject))),
                       Refusing(Transitioning(REFUSAL, AfterReject)), REFUSAL, AfterReject,
                       Choose(LATER, 0, Persisted)) ==
            Write(Holding(REFUSED), Refusing(Finishing))
  {
    MovesTo(ANOTHER, REFUSAL, LATER, REFUSED);
  }

  lemma IsSettled()
    ensures Reached(Solo(Second(Waiting(Done0().c, 2, OTHER), REFUSED), Refusing(Finishing)), Job(RecoveryRequired))
  {
    IsRejected();
    RefusalIsWritten();
    WritesRefusal();
    Transits(Second(Waiting(Done0().c, 2, OTHER), ANOTHER), Job(RecoveryRequired),
             Refusing(Transitioning(REFUSAL, AfterReject)),
             Choose(LATER, 0, Persisted), REFUSAL, AfterReject, Write(Holding(REFUSED), Refusing(Finishing)),
             Solo(Second(Waiting(Done0().c, 2, OTHER), REFUSED), Refusing(Finishing)));
  }

  lemma Finishes(w: World, tab: J.Table, th: Thread, next: Thread)
    requires Reached(Solo(w, th), tab) && Calm(w, th) && w.journal.None? && th.pc.Finishing? && th.confirmed
    requires next == th.(pc := Completing)
    ensures Reached(Solo(w, next), tab)
  {
    Exits(w, tab, th, GOOD, Stay(next), Solo(w, next));
  }

  lemma Completes(w: World, tab: J.Table, th: Thread, v: World)
    requires Reached(Solo(w, th), tab) && Calm(w, th) && w.journal.None? && th.pc.Completing? && !th.leased
    requires w.c.lease.None?
    requires v == Gone(w, th.request.id).(c := C.Complete(w.c, th.request.id, th.confirmed))
    ensures Reached(v, tab)
  {
    Exits(w, tab, th, GOOD, Depart(C.Complete(w.c, th.request.id, th.confirmed)), v);
  }

  /** The other create is gone, and the first create's record with it. */
  function Dropped(): World {
    Gone(Second(Section(false, false, None, {0, 1, 2}, {0, 2}, 5), REFUSED), 2)
  }

  lemma DroppedIsReached()
    ensures Reached(Dropped(), Job(RecoveryRequired))
  {
    IsSettled();
    var w := Second(Waiting(Done0().c, 2, OTHER), REFUSED);
    Finishes(w, Job(RecoveryRequired), Refusing(Finishing), Refusing(Completing));
    assert C.Complete(w.c, 2, true) == Dropped().c;
    Completes(w, Job(RecoveryRequired), Refusing(Completing), Dropped());
  }

  // --------------------------------------------- The create is asked for again

  const AGAIN := Record(OPERATION, Pending, 0, NoMessage, LATER)

  function Both(): S.Store {
    S.Store(map[OTHER := REFUSED, OPERATION := AGAIN], map[], map[OTHER := REFUSED, OPERATION := AGAIN])
  }

  function Third(c: C.Coord, leaked: set<nat>): World {
    Scene(c, None, Both(), map[OTHER := 2, OPERATION := 3], {0}, leaked, 3)
  }

  lemma ReservationAgain()
    ensures S.Reserve(Holding(REFUSED), LIMITS, Wanted(Create(3, OPERATION)), LATER, Persisted) ==
        (Both(), S.Reserved(AGAIN))
  {
    assert OPERATION[0] == 'a' && OTHER[0] == 'b';
    assert S.Prune(map[OTHER := REFUSED], LATER, 1000) == map[OTHER := REFUSED];
  }

  lemma IsReservedAgain()
    ensures Reached(Solo(Third(Waiting(Dropped().c, 3, OPERATION), {}), Creating(Create(3, OPERATION), ReserveJob, "")),
                    Job(RecoveryRequired))
  {
    DroppedIsReached();
    ReservationAgain();
    assert OPERATION[0] == 'a' && OTHER[0] == 'b';
    assert Rest(Dropped(), Create(3, OPERATION));
    assert Authors(Solo(Preparing(Dropped(), Create(3, OPERATION)), Creating(Create(3, OPERATION), ReserveRecord, "")),
                   3, Both()) ==
           map[OTHER := 2, OPERATION := 3];
    IsReserved(Dropped(), Job(RecoveryRequired), Create(3, OPERATION), LATER, Both(), map[OTHER := 2, OPERATION := 3]);
  }

  lemma TheOldJobAnswers()
    ensures J.Reserve(Job(RecoveryRequired), JOBS, OPERATION, FINGERPRINT, ["job"], LATER).1 == J.ExistingJob("job")
  {
    LookupsKeepTheJob();
  }

  lemma IsAnswered()
    ensures Reached(Solo(Third(Waiting(Dropped().c, 3, OPERATION), {3}), Creating(Create(3, OPERATION), Settling, "")),
                    Job(RecoveryRequired))
  {
    IsReservedAgain();
    LookupsKeepTheJob();
    TheOldJobAnswers();
    Admits(Third(Waiting(Dropped().c, 3, OPERATION), {}), Job(RecoveryRequired),
           Creating(Create(3, OPERATION), ReserveJob, ""),
           Choose(LATER, 2, Persisted), Stay(Creating(Create(3, OPERATION), Settling, "")),
           Solo(Third(Waiting(Dropped().c, 3, OPERATION), {3}), Creating(Create(3, OPERATION), Settling, "")));
  }

  lemma SettlesNothing()
    ensures Reached(Solo(Third(Waiting(Dropped().c, 3, OPERATION), {3}), Creating(Create(3, OPERATION), Finishing, "")),
                    Job(RecoveryRequired))
  {
    IsAnswered();
    LookupsKeepTheJob();
    Exits(Third(Waiting(Dropped().c, 3, OPERATION), {3}), Job(RecoveryRequired),
          Creating(Create(3, OPERATION), Settling, ""), GOOD,
          Stay(Creating(Create(3, OPERATION), Finishing, "")),
          Solo(Third(Waiting(Dropped().c, 3, OPERATION), {3}), Creating(Create(3, OPERATION), Finishing, "")));
  }

  function Forgetful(): World {
    Gone(Third(Section(false, false, None, {0, 1, 2, 3}, {0, 2, 3}, 6), {3}), 3)
  }

  lemma ForgetfulIsReached()
    ensures Reached(Forgetful(), Job(RecoveryRequired))
  {
    SettlesNothing();
    var w := Third(Waiting(Dropped().c, 3, OPERATION), {3});
    Finishes(w, Job(RecoveryRequired), Creating(Create(3, OPERATION), Finishing, ""),
             Creating(Create(3, OPERATION), Completing, ""));
    assert C.Complete(w.c, 3, true) == Forgetful().c;
    Completes(w, Job(RecoveryRequired), Creating(Create(3, OPERATION), Completing, ""), Forgetful());
  }

  /** A record that stays pending, nobody at work on it, every flag down. */
  predicate Overlooks(v: World, id: string) {
    && v.up && v.journal.None? && !v.marker && v.threads == map[]
    && !v.c.closed && !v.c.settlementPending && !v.c.journalPending
    && id in v.st.operations && v.st.operations[id].status.Pending?
  }

  /** The exception for older jobs is real: a run from the first start-up, in
      which every answer about a job is the job table's own, ends with the
      barrier open, nobody at work, and a record that stays pending. */
  lemma ReservationCanBeOverlooked()
    ensures exists w, tab, id :: Reached(w, tab) && Overlooks(w, id)
  {
    ForgetfulIsReached();
    assert Overlooks(Forgetful(), OPERATION);
  }
}
