/** What the control plane promises in every reachable state and over every run. */
module ControlPlaneTheorems {
  import opened Lifecycle
  import opened ControlPlane
  import opened ControlPlaneInvariant
  import opened ControlPlaneFrames
  import opened ControlPlaneSteps
  import opened ControlPlaneSafety
  import C = Coordination
  import S = OperationStore

  // ------------------------------------------------------------------- Runs

  ghost predicate Steps(w: World, e: Event, v: World) {
    Enabled(w, e) && v == Apply(w, e)
  }

  ghost predicate StepAt(ws: seq<World>, es: seq<Event>, k: nat)
    requires k < |es| && |ws| == |es| + 1
  {
    Steps(ws[k], es[k], ws[k + 1])
  }

  /** A run from the start: its events, and the states between them. */
  ghost predicate Run(ws: seq<World>, es: seq<Event>) {
    |ws| == |es| + 1 && Start(ws[0]) && forall k :: 0 <= k < |es| ==> StepAt(ws, es, k)
  }

  /** Every reachable state is in order. */
  lemma {:induction false} ReachableIsSafe(ws: seq<World>, es: seq<Event>, n: nat)
    requires Run(ws, es) && n <= |es|
    ensures Inv(ws[n])
  {
    if n == 0 {
      StartIsOk(ws[0]);
    } else {
      ReachableIsSafe(ws, es, n - 1);
      SafeStep(ws, es, n - 1);
    }
  }

  lemma SafeStep(ws: seq<World>, es: seq<Event>, n: nat)
    requires Run(ws, es) && n < |es| && Inv(ws[n])
    ensures Inv(ws[n + 1])
  {
    assert StepAt(ws, es, n);
    StepKeeps(ws[n], es[n]);
  }

  // --------------------------------------------- The barrier fails closed

  lemma BarrierFailsClosed(ws: seq<World>, es: seq<Event>, n: nat)
    requires Run(ws, es) && n <= |es|
    ensures var v := ws[n];
      && (v.marker ==> v.c.closed)
      && (v.c.settlementPending ==> v.c.closed)
      && (v.journal.Some? && v.c.active.None? ==> v.c.closed)
  {
    ReachableIsSafe(ws, es, n);
  }

  /** From `w` to `v`, thread `t` is given the lease. */
  ghost predicate Installs(w: World, v: World, e: Event, t: nat, th: Thread) {
    && e.Act? && e.t == t && t in w.threads && th == w.threads[t]
    && w.c.active != Some(t) && v.c.active == Some(t)
  }

  /** The coordinator after a step. */
  function CoordAfter(w: World, step: Step): C.Coord {
    match step
    case Coordinate(c, _) => c
    case Wait(c, _) => c
    case Depart(c) => c
    case _ => w.c
  }

  lemma CoordAfterIs(w: World, t: nat, step: Step)
    requires t in w.threads && w.author.Keys >= w.st.operations.Keys
    ensures Perform(w, t, step).c == CoordAfter(w, step)
  {
  }

  lemma AdmissionKeepsTheLease(w: World, th: Thread, ch: Choice)
    requires Admitting(th.pc)
    ensures var d := CoordAfter(w, Admission(w, th, ch));
      d.active == w.c.active && d.settlementPending == w.c.settlementPending
      && (d.preparing == w.c.preparing || (th.pc.AwaitPrepare? && w.c.preparing.None?
                                           && !C.Unsettled(Observed(w, th, th.pc.first))))
  {
  }

  lemma ServiceKeepsTheLease(w: World, t: nat, th: Thread, ch: Choice)
    requires Serving(th.pc)
    ensures var d := CoordAfter(w, Service(w, t, th, ch));
      && (d.active == w.c.active || (d.active == Some(th.request.id)
            && th.pc.AwaitPromote? && w.c.active.None? && C.Promotable(Observed(w, th, th.pc.first), th.request)))
      && d.settlementPending == w.c.settlementPending
      && (d.preparing == w.c.preparing || d.preparing.None?)
  {
  }

  lemma ExitKeepsTheLease(w: World, t: nat, th: Thread, ch: Choice)
    requires Exiting(th.pc)
    ensures var d := CoordAfter(w, Exit(w, t, th, ch));
      && (d.active == w.c.active || d.active.None?)
      && (w.c.settlementPending ==> d.settlementPending)
      && (d.preparing == w.c.preparing || d.preparing.None?)
  {
  }

  /** Why the thread may be given the lease it asks for. */
  ghost predicate MayHaveLease(w: World, th: Thread) {
    && w.c.active.None?
    && match th.pc
       case AwaitPromote(first) => C.Promotable(Observed(w, th, first), th.request)
       case AwaitBegin =>
         w.c.preparing.None? && !w.c.closed && !w.c.settlementPending && !w.c.journalPending && w.journal.None?
       case AwaitRecovery => w.c.preparing.None? && (w.c.journalPending || w.journal.Some?)
       case _ => false
  }

  lemma ErrandKeepsTheLease(w: World, t: nat, th: Thread, ch: Choice)
    requires !Admitting(th.pc) && !Serving(th.pc) && !Exiting(th.pc)
    ensures var d := CoordAfter(w, Errand(w, t, th, ch));
      && (d.active == w.c.active || (d.active == Some(t) && MayHaveLease(w, th)))
      && d.settlementPending == w.c.settlementPending
      && d.preparing == w.c.preparing
  {
  }

  lemma InstalledCoord(w: World, v: World, e: Event, t: nat, th: Thread)
    requires Steps(w, e, v) && Installs(w, v, e, t, th)
    ensures v.c == CoordAfter(w, Next(w, t, e.ch)) && v.c.active == Some(t) && w.c.active != Some(t)
  {
    CoordAfterIs(w, t, Next(w, t, e.ch));
  }

  /** A lease is installed for a promotion, a mutation or a recovery, never over another. */
  lemma InstallingKinds(w: World, v: World, e: Event, t: nat, th: Thread)
    requires Steps(w, e, v) && Installs(w, v, e, t, th)
    ensures MayHaveLease(w, th)
  {
    InstalledCoord(w, v, e, t, th);
    if Admitting(th.pc) { AdmissionKeepsTheLease(w, th, e.ch); }
    else if Serving(th.pc) { ServiceKeepsTheLease(w, t, th, e.ch); }
    else if Exiting(th.pc) { ExitKeepsTheLease(w, t, th, e.ch); }
    else { ErrandKeepsTheLease(w, t, th, e.ch); }
  }

  lemma PromotionWhileOpen(w: World, th: Thread, first: bool)
    requires FailsClosed(w) && w.c.active.None? && C.Promotable(Observed(w, th, first), th.request)
    requires !Observed(w, th, first).closed
    ensures !w.marker && w.journal.None? && !w.c.settlementPending && !w.c.journalPending
  {
  }

  lemma PromotionWhileClosed(w: World, th: Thread, first: bool)
    requires TokensOk(w) && w.c.active.None? && C.Promotable(Observed(w, th, first), th.request)
    requires Observed(w, th, first).closed
    ensures C.LeasedKind(th.request) && th.request.operation != "" && th.request.attempt != ""
    ensures C.Presents(w.c.lease, th.request) && th.request.attempt in w.issued && th.request.attempt !in w.consumed
    ensures !w.c.settlementPending && !w.c.journalPending
  {
  }

  lemma PromotionGrants(w: World, t: nat, th: Thread, ch: Choice, first: bool)
    requires th.pc == AwaitPromote(first) && th.request.id == t
    requires w.c.active != Some(t) && CoordAfter(w, Service(w, t, th, ch)).active == Some(t)
    ensures Service(w, t, th, ch) ==
            Coordinate(C.Promoted(Observed(w, th, first), th.request, th.job), th.(pc := Admitted, leased := true))
  {
  }

  /** Any lease but a recovery's, while the barrier is open, starts over no
      marker, no journal and no unsettled record, whatever was read before. */
  lemma OpenLeasesStartClean(w: World, v: World, e: Event, t: nat, th: Thread)
    requires Inv(w) && Steps(w, e, v) && Installs(w, v, e, t, th) && !th.pc.AwaitRecovery? && !v.c.closed
    ensures !w.marker && w.journal.None? && !w.c.settlementPending && !w.c.journalPending
  {
    InstallingKinds(w, v, e, t, th);
    if th.pc.AwaitPromote? {
      assert ThreadOk(w, t);
      InstalledCoord(w, v, e, t, th);
      PromotionGrants(w, t, th, e.ch, th.pc.first);
      PromotionWhileOpen(w, th, th.pc.first);
    }
  }

  /** While the barrier is closed, only recoveries get a lease, and leased kinds
      that present the token of an issued, unused maintenance lease, which is
      thereby used up and bound to their operation and job. */
  lemma ClosedLeasesAreSingleUse(w: World, v: World, e: Event, t: nat, th: Thread)
    requires Inv(w) && Steps(w, e, v) && Installs(w, v, e, t, th) && !th.pc.AwaitRecovery? && v.c.closed
    ensures var p := th.request;
      && C.LeasedKind(p) && p.operation != "" && p.attempt != ""
      && C.Presents(w.c.lease, p) && p.attempt in w.issued && p.attempt !in w.consumed
      && !w.c.settlementPending && !w.c.journalPending
      && v.c.lease == Some(C.MaintenanceLease(p.attempt, p.operation, th.job, true))
      && v.consumed == w.consumed + {p.attempt}
  {
    ClosedLeasesArePromotions(w, v, e, t, th);
    InstalledCoord(w, v, e, t, th);
    PromotionGrants(w, t, th, e.ch, th.pc.first);
    PromotionWhileClosed(w, th, th.pc.first);
    PromotionSpends(w, t, th, th.pc.first);
  }

  lemma PromotionSpends(w: World, t: nat, th: Thread, first: bool)
    requires t in w.threads && th == w.threads[t] && w.author.Keys >= w.st.operations.Keys
    requires C.Promotable(Observed(w, th, first), th.request) && Observed(w, th, first).closed
    ensures var v := Perform(w, t,
                             Coordinate(C.Promoted(Observed(w, th, first), th.request, th.job),
                                        th.(pc := Admitted, leased := true)));
      && v.c.lease == Some(C.MaintenanceLease(th.request.attempt, th.request.operation, th.job, true))
      && v.consumed == w.consumed + {th.request.attempt}
  {
  }

  lemma ClosedLeasesArePromotions(w: World, v: World, e: Event, t: nat, th: Thread)
    requires Inv(w) && Steps(w, e, v) && Installs(w, v, e, t, th) && !th.pc.AwaitRecovery? && v.c.closed
    ensures th.pc.AwaitPromote? && th.request.id == t && w.c.active.None?
    ensures C.Promotable(Observed(w, th, th.pc.first), th.request)
  {
    assert ThreadOk(w, t);
    InstallingKinds(w, v, e, t, th);
    InstalledCoord(w, v, e, t, th);
    if th.pc.AwaitBegin? { BeginLeavesOpen(w, t, th); }
  }

  lemma BeginLeavesOpen(w: World, t: nat, th: Thread)
    requires CoordAfter(w, BeginTurn(w, t, th)).active == Some(t) && w.c.active != Some(t)
    ensures !CoordAfter(w, BeginTurn(w, t, th)).closed
  {
  }

  lemma PerformGrows(w: World, t: nat, step: Step)
    requires t in w.threads && w.author.Keys >= w.st.operations.Keys
    ensures w.consumed <= Perform(w, t, step).consumed && w.started <= Perform(w, t, step).started
  {
  }

  lemma ListsGrow(w: World, e: Event)
    requires Enabled(w, e)
    ensures w.consumed <= Apply(w, e).consumed && w.started <= Apply(w, e).started
  {
    if e.Act? { PerformGrows(w, e.t, Next(w, e.t, e.ch)); }
  }

  lemma {:induction false} ListsGrowOverRuns(ws: seq<World>, es: seq<Event>, i: nat, j: nat)
    requires Run(ws, es) && i <= j <= |es|
    ensures ws[i].consumed <= ws[j].consumed && ws[i].started <= ws[j].started
    decreases j
  {
    if i < j {
      ListsGrowOverRuns(ws, es, i, j - 1);
      assert StepAt(ws, es, j - 1);
      ListsGrow(ws[j - 1], es[j - 1]);
    }
  }

  /** The event promotes `t` under the maintenance token it presents. */
  ghost predicate Spends(w: World, v: World, e: Event, t: nat, th: Thread, token: string) {
    Installs(w, v, e, t, th) && !th.pc.AwaitRecovery? && v.c.closed && th.request.attempt == token
  }

  lemma SpendsOnce(ws: seq<World>, es: seq<Event>, n: nat, t: nat, th: Thread, token: string)
    requires Run(ws, es) && n < |es| && Spends(ws[n], ws[n + 1], es[n], t, th, token)
    ensures token !in ws[n].consumed && token in ws[n + 1].consumed
  {
    ReachableIsSafe(ws, es, n);
    assert StepAt(ws, es, n);
    ClosedLeasesAreSingleUse(ws[n], ws[n + 1], es[n], t, th);
  }

  /** Over a whole run, restarts included, a maintenance token admits one promotion. */
  lemma TokensAdmitOnce(ws: seq<World>, es: seq<Event>, i: nat, j: nat, t: nat, u: nat, a: Thread, b: Thread,
                        token: string)
    requires Run(ws, es) && i < j < |es| && Spends(ws[i], ws[i + 1], es[i], t, a, token)
    ensures !Spends(ws[j], ws[j + 1], es[j], u, b, token)
  {
    SpendsOnce(ws, es, i, t, a, token);
    ListsGrowOverRuns(ws, es, i + 1, j);
    NotSpentAgain(ws, es, j, u, b, token);
  }

  lemma NotSpentAgain(ws: seq<World>, es: seq<Event>, n: nat, t: nat, th: Thread, token: string)
    requires Run(ws, es) && n < |es| && token in ws[n].consumed
    ensures !Spends(ws[n], ws[n + 1], es[n], t, th, token)
  {
    if Spends(ws[n], ws[n + 1], es[n], t, th, token) {
      SpendsOnce(ws, es, n, t, th, token);
    }
  }

  // ------------------------------------------- One worker per reservation

  /** The event starts a worker for the operation. */
  ghost predicate StartsWorker(w: World, v: World, e: Event, t: nat, id: string) {
    && e.Act? && e.t == t
    && t in v.threads && v.threads[t].request.operation == id && t !in w.started && t in v.started
  }

  lemma StartersWork(w: World, t: nat, step: Step)
    requires t in w.threads && w.author.Keys >= w.st.operations.Keys
    requires t !in w.started && t in Perform(w, t, step).started
    ensures t in Perform(w, t, step).threads && Perform(w, t, step).threads[t].pc.Working?
  {
  }

  lemma WorkersOwnTheirRecord(v: World, t: nat, id: string)
    requires ThreadsOk(v) && t in v.threads && v.threads[t].pc.Working? && v.threads[t].request.operation == id
    requires id != ""
    ensures UnderWay(v, t, id)
  {
    assert ThreadOk(v, t);
  }

  lemma StartersOwnTheRecord(w: World, v: World, e: Event, t: nat, id: string)
    requires Inv(w) && Steps(w, e, v) && StartsWorker(w, v, e, t, id) && id != ""
    ensures UnderWay(v, t, id)
  {
    ActKeeps(w, t, e.ch);
    StartersWork(w, t, Next(w, t, e.ch));
    WorkersOwnTheirRecord(v, t, id);
  }

  lemma AuthorsStay(w: World, e: Event, id: string)
    requires Enabled(w, e) && id in w.st.operations && id in Apply(w, e).st.operations && w.st.file == w.st.operations
    ensures Apply(w, e).author[id] == w.author[id]
  {
    if e.Act? { PerformKeepsAuthors(w, e.t, Next(w, e.t, e.ch), id); }
  }

  lemma PerformKeepsAuthors(w: World, t: nat, step: Step, id: string)
    requires t in w.threads && w.author.Keys >= w.st.operations.Keys && id in w.st.operations
    requires id in Perform(w, t, step).st.operations
    ensures id in Perform(w, t, step).author && Perform(w, t, step).author[id] == w.author[id]
  {
  }

  /** The record of the operation is in the store from state `i` to state `j`. */
  ghost predicate StaysReserved(ws: seq<World>, i: nat, j: nat, id: string)
    requires i <= j < |ws|
  {
    forall k :: i <= k <= j ==> id in ws[k].st.operations
  }

  ghost predicate AuthoredBy(w: World, id: string, t: nat) {
    id in w.author && w.author[id] == t
  }

  lemma AuthorsStayAt(ws: seq<World>, es: seq<Event>, n: nat, id: string, t: nat)
    requires Run(ws, es) && n < |es| && AuthoredBy(ws[n], id, t) && id in ws[n + 1].st.operations
    ensures AuthoredBy(ws[n + 1], id, t)
  {
    ReachableIsSafe(ws, es, n);
    ReachableIsSafe(ws, es, n + 1);
    assert StepAt(ws, es, n);
    AuthorsStay(ws[n], es[n], id);
  }

  lemma {:induction false} AuthorsStayOverRuns(ws: seq<World>, es: seq<Event>, i: nat, j: nat, id: string, t: nat)
    requires Run(ws, es) && i <= j <= |es| && StaysReserved(ws, i, j, id) && AuthoredBy(ws[i], id, t)
    ensures AuthoredBy(ws[j], id, t)
    decreases j
  {
    if i < j {
      AuthorsStayOverRuns(ws, es, i, j - 1, id, t);
      AuthorsStayAt(ws, es, j - 1, id, t);
    }
  }

  lemma StarterAt(ws: seq<World>, es: seq<Event>, n: nat, t: nat, id: string)
    requires Run(ws, es) && n < |es| && id != "" && StartsWorker(ws[n], ws[n + 1], es[n], t, id)
    ensures AuthoredBy(ws[n + 1], id, t) && t !in ws[n].started && t in ws[n + 1].started
  {
    ReachableIsSafe(ws, es, n);
    assert StepAt(ws, es, n);
    StartersOwnTheRecord(ws[n], ws[n + 1], es[n], t, id);
  }

  /** At most one worker is ever started for an operation while its record is in
      the store: across concurrent identical requests, retries after commits of
      unknown fate, repairs and restarts. */
  lemma OneWorkerPerReservation(ws: seq<World>, es: seq<Event>, i: nat, j: nat, t: nat, u: nat, id: string)
    requires Run(ws, es) && i < j < |es| && id != ""
    requires StartsWorker(ws[i], ws[i + 1], es[i], t, id) && StaysReserved(ws, i + 1, j + 1, id)
    ensures !StartsWorker(ws[j], ws[j + 1], es[j], u, id)
  {
    StarterAt(ws, es, i, t, id);
    AuthorsStayOverRuns(ws, es, i + 1, j + 1, id, t);
    ListsGrowOverRuns(ws, es, i + 1, j);
    NotStartedAgain(ws, es, j, t, u, id);
  }

  lemma NotStartedAgain(ws: seq<World>, es: seq<Event>, n: nat, t: nat, u: nat, id: string)
    requires Run(ws, es) && n < |es| && id != "" && AuthoredBy(ws[n + 1], id, t) && t in ws[n].started
    ensures !StartsWorker(ws[n], ws[n + 1], es[n], u, id)
  {
    if StartsWorker(ws[n], ws[n + 1], es[n], u, id) {
      StarterAt(ws, es, n, u, id);
    }
  }

  // ------------------------------------------- Nothing is released unsettled

  /** In every reachable running state an unfinished record is being worked on
      by the request that reserved it, or waits for the repair of a journal that
      is on disk, or the coordinator refuses everything but recovery, or its
      request was answered with an older job, or its worker was promoted over
      another journal: `ControlPlaneOrderly` says when nobody is. */
  lemma NothingIsForgotten(ws: seq<World>, es: seq<Event>, n: nat, id: string)
    requires Run(ws, es) && n <= |es|
    requires var v := ws[n]; v.up && id in v.st.operations && !IsTerminal(v.st.operations[id].status)
    ensures var v := ws[n];
      && id in v.author
      && (|| v.author[id] in v.threads
          || (v.st.operations[id].status.RecoveryRequired? && v.journal.Some? && v.journal.value.operation == id)
          || (v.st.operations[id].status.RecoveryRequired? && v.author[id] in v.raced)
          || (v.c.settlementPending && v.c.closed)
          || v.author[id] in v.leaked)
  {
    ReachableIsSafe(ws, es, n);
    assert Live(ws[n], id) && Accounted(ws[n], id);
  }

  /** The moment a worker gives back its lease: its own record is finished, or
      waits for recovery with a journal on disk and the barrier now closed, or
      the settlement flag is up. The journal is its own, unless the worker was
      promoted over another. */
  lemma LeaseReturnsSettled(w: World, t: nat, ch: Choice)
    requires Inv(w) && Enabled(w, Act(t, ch)) && w.threads[t].pc.Releasing? && w.threads[t].role.Requester?
    requires var id := w.threads[t].request.operation; id != "" && Wrote(w, t, id)
    ensures var id := w.threads[t].request.operation; var v := Apply(w, Act(t, ch));
      && v.st == w.st && v.c.active.None?
      && (|| IsTerminal(v.st.operations[id].status)
          || (v.c.settlementPending && v.c.closed)
          || (v.st.operations[id].status.RecoveryRequired? && v.journal.Some? && v.c.closed
              && (v.journal.value.operation == id || t in v.raced)))
  {
    assert ThreadOk(w, t);
    ReleaseDeparts(w, t, ch);
    LeaversAreSettled(w, t);
    ReleaseCloses(w, t);
  }

  lemma ReleaseDeparts(w: World, t: nat, ch: Choice)
    requires Enabled(w, Act(t, ch)) && w.threads[t].pc.Releasing?
    ensures Apply(w, Act(t, ch)) == Perform(w, t, Depart(C.Done(w.c, t, JournalPresent(w))))
  {
  }

  lemma LeaversAreSettled(w: World, t: nat)
    requires ThreadsOk(w) && t in w.threads && w.threads[t].pc.Releasing? && w.threads[t].role.Requester?
    requires var id := w.threads[t].request.operation; id != "" && Wrote(w, t, id)
    ensures ThreadOk(w, t)
    ensures var id := w.threads[t].request.operation;
      IsTerminal(w.st.operations[id].status) || w.c.settlementPending || HandedOver(w, t, id)
  {
    assert ThreadOk(w, t);
  }

  lemma ReleaseCloses(w: World, t: nat)
    requires FailsClosed(w) && Ready(w, t) && w.threads[t].pc.Releasing?
    ensures var v := Perform(w, t, Depart(C.Done(w.c, t, JournalPresent(w))));
      && v.c.active.None? && (v.journal.Some? || v.c.settlementPending ==> v.c.closed)
      && v.st == w.st && v.journal == w.journal && v.raced == w.raced && v.c.settlementPending == w.c.settlementPending
  {
  }

  /** The moment a request that reserved its record exits without a lease: the
      record is finished or the settlement flag goes up, unless it was answered
      with an older job, which is a success, never an error. */
  lemma ExitsAreSettled(w: World, t: nat, ch: Choice)
    requires Inv(w) && Enabled(w, Act(t, ch)) && w.threads[t].pc.Completing? && !w.threads[t].leased
    requires var id := w.threads[t].request.operation; id != "" && Wrote(w, t, id)
    ensures var id := w.threads[t].request.operation; var v := Apply(w, Act(t, ch));
      && v.st == w.st
      && (IsTerminal(v.st.operations[id].status) || (v.c.settlementPending && v.c.closed)
          || (t in w.leaked && w.threads[t].http < 400))
  {
    CompletionCompletes(w, t, ch);
    ExitingIsSettled(w, t);
    CompletionCloses(w, t, w.threads[t]);
  }

  lemma CompletionCompletes(w: World, t: nat, ch: Choice)
    requires Enabled(w, Act(t, ch)) && w.threads[t].pc.Completing?
    ensures Apply(w, Act(t, ch)) == Perform(w, t, Complete(w, t, w.threads[t]))
  {
  }

  lemma ExitingIsSettled(w: World, t: nat)
    requires ThreadsOk(w) && t in w.threads && w.threads[t].pc.Completing? && !w.threads[t].leased
    requires var id := w.threads[t].request.operation; id != "" && Wrote(w, t, id)
    ensures ThreadOk(w, t)
    ensures var id := w.threads[t].request.operation;
      IsTerminal(w.st.operations[id].status) || w.c.settlementPending || (t in w.leaked && w.threads[t].http < 400)
  {
    assert ThreadOk(w, t);
  }

  lemma CompletionCloses(w: World, t: nat, th: Thread)
    requires FailsClosed(w) && Ready(w, t) && th == w.threads[t] && th.pc.Completing? && !th.leased
    ensures var v := Perform(w, t, Complete(w, t, th));
      v.st == w.st && (w.c.settlementPending ==> v.c.settlementPending && v.c.closed)
  {
  }

  function ActOf(w: World, t: nat, ch: Choice): World
    requires t in w.threads && w.author.Keys >= w.st.operations.Keys
  {
    Perform(w, t, Next(w, t, ch))
  }

  lemma OlderJobAnswers(w: World, t: nat, th: Thread, ch: Choice)
    requires t in w.threads && th == w.threads[t] && th.pc.ReserveJob? && ch.pick >= 2
    requires w.author.Keys >= w.st.operations.Keys
    ensures ActOf(w, t, ch) ==
      w.(threads := w.threads[t := th.(pc := Settling, http := 200)], leaked := w.leaked + {t})
  {
  }

  lemma SuccessIsNotSettled(w: World, t: nat, th: Thread, ch: Choice)
    requires t in w.threads && th == w.threads[t] && th.pc.Settling? && th.http < 400 && t in w.leaked
    requires w.author.Keys >= w.st.operations.Keys
    ensures ActOf(w, t, ch) == w.(threads := w.threads[t := th.(pc := Finishing)])
  {
    assert w.leaked + {t} == w.leaked;
  }

  lemma ConfirmedFinishes(w: World, t: nat, th: Thread, ch: Choice)
    requires t in w.threads && th == w.threads[t] && th.pc.Finishing? && th.confirmed
    requires w.author.Keys >= w.st.operations.Keys
    ensures ActOf(w, t, ch) == w.(threads := w.threads[t := th.(pc := Completing)])
  {
  }

  lemma UnleasedCompletes(w: World, t: nat, th: Thread, ch: Choice)
    requires t in w.threads && th == w.threads[t] && th.pc.Completing? && th.confirmed && !th.leased
    requires w.author.Keys >= w.st.operations.Keys
    ensures var v := ActOf(w, t, ch);
      t !in v.threads && v.st == w.st && v.leaked == w.leaked && v.c.settlementPending == w.c.settlementPending
  {
  }

  /** `n` steps of one thread with nobody else in between, or fewer if it ends. */
  function Onwards(w: World, t: nat, ch: Choice, n: nat): World
    decreases n
  {
    if n == 0 || t !in w.threads || !(w.author.Keys >= w.st.operations.Keys) then w
    else Onwards(ActOf(w, t, ch), t, ch, n - 1)
  }

  /** What that exception means: a request that was answered with an older job
      is gone three steps later, its record as it was and no flag raised. */
  lemma RepliedRequestLeaves(a: World, t: nat, th: Thread, ch: Choice)
    requires t in a.threads && th == a.threads[t] && th.pc.Settling? && th.http < 400 && t in a.leaked
    requires th.confirmed && !th.leased && a.author.Keys >= a.st.operations.Keys
    ensures var z := Onwards(a, t, ch, 3);
      t !in z.threads && z.st == a.st && z.c.settlementPending == a.c.settlementPending
  {
    SuccessIsNotSettled(a, t, th, ch);
    var b := ActOf(a, t, ch);
    ConfirmedFinishes(b, t, b.threads[t], ch);
    var c := ActOf(b, t, ch);
    UnleasedCompletes(c, t, c.threads[t], ch);
    assert Onwards(a, t, ch, 3) == Onwards(b, t, ch, 2) == Onwards(c, t, ch, 1) == Onwards(ActOf(c, t, ch), t, ch, 0);
  }

  // --------------------------------------- Once a settlement is in doubt

  lemma OthersKeepTheHolders(w: World, v: World, e: Event)
    requires Steps(w, e, v) && !e.Act? && !e.Restart?
    ensures v.c.settlementPending == w.c.settlementPending && v.c.preparing == w.c.preparing && v.c.active == w.c.active
  {
  }

  lemma ActKeepsTheHolders(w: World, v: World, e: Event, th: Thread)
    requires Steps(w, e, v) && e.Act? && th == w.threads[e.t]
    ensures w.c.settlementPending ==> v.c.settlementPending
    ensures v.c.active == w.c.active || v.c.active.None?
            || (MayHaveLease(w, th) && (v.c.active == Some(e.t) || v.c.active == Some(th.request.id)))
    ensures v.c.preparing == w.c.preparing || v.c.preparing.None?
            || (th.pc.AwaitPrepare? && w.c.preparing.None? && !C.Unsettled(Observed(w, th, th.pc.first)))
  {
    CoordAfterIs(w, e.t, Next(w, e.t, e.ch));
    if Admitting(th.pc) { AdmissionKeepsTheLease(w, th, e.ch); }
    else if Serving(th.pc) { ServiceKeepsTheLease(w, e.t, th, e.ch); }
    else if Exiting(th.pc) { ExitKeepsTheLease(w, e.t, th, e.ch); }
    else { ErrandKeepsTheLease(w, e.t, th, e.ch); }
  }

  /** Until the process restarts, a doubtful settlement stays doubtful: nobody
      is admitted any more, and only recoveries get the lease. */
  lemma DoubtAdmitsOnlyRecovery(w: World, v: World, e: Event)
    requires Steps(w, e, v) && !e.Restart? && w.c.settlementPending
    ensures v.c.settlementPending
    ensures v.c.preparing == w.c.preparing || v.c.preparing.None?
    ensures v.c.active == w.c.active || v.c.active.None? || (e.Act? && w.threads[e.t].pc.AwaitRecovery?)
  {
    if e.Act? {
      ActKeepsTheHolders(w, v, e, w.threads[e.t]);
    } else {
      OthersKeepTheHolders(w, v, e);
    }
  }

  ghost predicate NoRestart(es: seq<Event>, i: nat, j: nat)
    requires i <= j <= |es|
  {
    forall k :: i <= k < j ==> !es[k].Restart?
  }

  lemma DoubtStaysAt(ws: seq<World>, es: seq<Event>, n: nat)
    requires Run(ws, es) && n < |es| && !es[n].Restart? && ws[n].c.settlementPending
    ensures ws[n + 1].c.settlementPending
    ensures
      || ws[n + 1].c.active == ws[n].c.active
      || ws[n + 1].c.active.None?
      || (es[n].Act? && es[n].t in ws[n].threads && ws[n].threads[es[n].t].pc.AwaitRecovery?)
    ensures ws[n + 1].c.preparing == ws[n].c.preparing || ws[n + 1].c.preparing.None?
  {
    assert StepAt(ws, es, n);
    DoubtAdmitsOnlyRecovery(ws[n], ws[n + 1], es[n]);
  }

  lemma {:induction false} DoubtLastsUntilRestart(ws: seq<World>, es: seq<Event>, i: nat, j: nat)
    requires Run(ws, es) && i <= j <= |es| && NoRestart(es, i, j) && ws[i].c.settlementPending
    ensures ws[j].c.settlementPending && ws[j].c.closed
    ensures ws[j].c.preparing.Some? ==> ws[j].c.preparing == ws[i].c.preparing
    decreases j
  {
    ReachableBarrier(ws, es, j);
    if i < j {
      DoubtLastsUntilRestart(ws, es, i, j - 1);
      DoubtStaysAt(ws, es, j - 1);
    }
  }

  lemma ReachableBarrier(ws: seq<World>, es: seq<Event>, n: nat)
    requires Run(ws, es) && n <= |es|
    ensures ws[n].c.settlementPending ==> ws[n].c.closed
  {
    ReachableIsSafe(ws, es, n);
  }

  // ----------------------------------- One mutation at a time, and no gap

  /** At most one thread holds the lease, and at most one the preparation. */
  lemma OneAtATime(w: World, t: nat, u: nat)
    requires Inv(w) && t in w.threads && u in w.threads
    requires Engaged(w.threads[t]) && Engaged(w.threads[u]) && w.threads[t].leased == w.threads[u].leased
    ensures t == u
  {
    assert ThreadOk(w, t) && ThreadOk(w, u);
  }

  /** Maintenance is entered idly only when no request is anywhere between its
      admission and its exit, no worker holds the lease and no repair runs. */
  lemma IdleMeansNobody(w: World, v: World, token: string, outcome: WriteOutcome, t: nat)
    requires Inv(w) && Steps(w, EnterIfIdle(token, outcome), v) && token in v.issued && t in w.threads
    ensures !Engaged(w.threads[t]) && outcome.Persisted? && v.c.closed && v.marker
  {
    assert ThreadOk(w, t);
  }

  /** Of a mutation and an idle maintenance entry that race, exactly one wins. */
  lemma ExactlyOneWins(c: C.Coord, id: nat, token: string)
    requires C.Idle(c, false, false)
    ensures var (begun, first) := C.BeginTurn(c, id, false, true);
      first == C.Granted && !C.EnterIfIdle(begun, false, false, token, Persisted).1
    ensures var (entered, first) := C.EnterIfIdle(c, false, false, token, Persisted);
      first && C.BeginTurn(entered, id, false, true).1 == C.Refused
  {
  }

  lemma BeginsWhenIdle(w: World, t: nat, ch: Choice)
    requires Enabled(w, Act(t, ch)) && w.threads[t].pc.AwaitBegin? && C.Idle(w.c, w.marker, JournalPresent(w))
    ensures var v := Apply(w, Act(t, ch));
      v.c == w.c.(active := Some(t)) && v.marker == w.marker && v.journal == w.journal && v.issued == w.issued
      && v.author == w.author && v.st == w.st && v.up
  {
  }

  lemma TurnedAwayWhenClosed(w: World, t: nat, ch: Choice)
    requires Enabled(w, Act(t, ch)) && w.threads[t].pc.AwaitBegin? && !C.Busy(w.c) && w.c.closed
    ensures var v := Apply(w, Act(t, ch)); t !in v.threads && v.c == w.c && v.marker == w.marker
  {
  }

  lemma EntersWhenIdle(w: World, token: string)
    requires Enabled(w, EnterIfIdle(token, Persisted)) && C.Idle(w.c, w.marker, JournalPresent(w))
    ensures var v := Apply(w, EnterIfIdle(token, Persisted));
      && v.c.closed && v.marker && !C.Busy(v.c) && v.c.broadcasts == w.c.broadcasts + 1
      && v == w.(c := v.c, marker := true, issued := w.issued + {token})
  {
  }

  /** In any state in which a mutation and an idle entry could both go ahead, the
      order of the two decides: whichever comes first succeeds and the other is
      refused, so that a marker and a lease never come together. */
  lemma RaceHasOneWinner(w: World, t: nat, ch: Choice, token: string)
    requires SleepersOk(w) && Enabled(w, Act(t, ch)) && Enabled(w, EnterIfIdle(token, Persisted)) && ch.token != token
    requires w.threads[t].pc.AwaitBegin? && C.Idle(w.c, w.marker, JournalPresent(w))
    ensures var a := Apply(w, Act(t, ch));
      && a.c.active == Some(t) && !a.c.closed
      && Enabled(a, EnterIfIdle(token, Persisted)) && Apply(a, EnterIfIdle(token, Persisted)) == a
    ensures var a := Apply(w, EnterIfIdle(token, Persisted));
      && a.marker && a.c.closed && token in a.issued
      && Enabled(a, Act(t, ch))
      && (var b := Apply(a, Act(t, ch)); t !in b.threads && b.c.active.None? && b.c.closed && b.marker)
  {
    BeginsWhenIdle(w, t, ch);
    EntersWhenIdle(w, token);
    var a := Apply(w, EnterIfIdle(token, Persisted));
    assert t in w.sleeping ==> w.sleeping[t] <= w.c.broadcasts;
    TurnedAwayWhenClosed(a, t, ch);
  }

  // ---------------------------------------------------- No stranded waiter

  /** Whoever sleeps waits for a holder, and some holder is awake to end the wait. */
  lemma SleepersHaveAHolder(w: World, t: nat)
    requires Inv(w) && Asleep(w, t)
    ensures exists u :: u in w.threads && Engaged(w.threads[u]) && !Asleep(w, u)
  {
    assert SleepsFor(w, t);
    if w.c.active.Some? {
      LeaseholdersAreAwake(w, w.c.active.value);
    } else {
      PreparersAreAwake(w, w.c.preparing.value.id);
    }
  }

  lemma LeaseholdersAreAwake(w: World, u: nat)
    requires Inv(w) && w.c.active == Some(u)
    ensures u in w.threads && Engaged(w.threads[u]) && !Asleep(w, u)
  {
    assert ThreadOk(w, u);
    assert Asleep(w, u) ==> SleepsFor(w, u);
  }

  lemma PreparersAreAwake(w: World, u: nat)
    requires Inv(w) && w.c.active.None? && w.c.preparing.Some? && w.c.preparing.value.id == u
    ensures u in w.threads && Engaged(w.threads[u]) && !Asleep(w, u)
  {
    assert ThreadOk(w, u);
    assert Asleep(w, u) ==> SleepsFor(w, u);
  }
}
