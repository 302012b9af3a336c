/** When no promotion can run over a journal: as long as maintenance is never
    left between the two halves of an entry. */
module ControlPlaneOrderly {
  import opened Lifecycle
  import opened ControlPlane
  import opened ControlPlaneInvariant
  import opened ControlPlaneFrames
  import opened ControlPlaneSteps
  import opened ControlPlaneSafety
  import opened ControlPlaneTheorems
  import C = Coordination
  import S = OperationStore

  /** A leave that reopens the barrier while an entry has closed it and still
      waits for the drain. Whoever leaves can see this before it does. */
  predicate Slips(w: World, e: Event) {
    && e.LeaveMaintenance?
    && C.Leave(w.c, JournalPresent(w), e.removable || !w.marker).1.Opened?
    && exists t :: t in w.threads && w.threads[t].pc.AwaitDrain?
  }

  predicate LiveLease(c: C.Coord) {
    c.lease.Some? && !c.lease.value.consumed
  }

  predicate HolderRepairs(w: World) {
    w.c.active.Some? && w.c.active.value in w.threads && w.threads[w.c.active.value].role.Repairer?
  }

  /** The journal is gone, or the coordinator knows that it is there. */
  predicate Known(w: World) {
    w.journal.None? || w.c.journalPending
  }

  predicate ReadCurrent(w: World, th: Thread) {
    th.pc.AwaitPromote? && LiveLease(w.c) && !(th.pc.first && th.sawJournal) ==> Known(w)
  }

  predicate Orderly(w: World) {
    && (forall t :: t in w.threads && w.threads[t].pc.AwaitDrain? ==> w.marker)
    && (LiveLease(w.c) ==> w.marker)
    && (LiveLease(w.c) && w.c.active.Some? ==> HolderRepairs(w))
    && (HolderRepairs(w) ==> Known(w))
    && (forall t :: t in w.threads ==> ReadCurrent(w, w.threads[t]))
    && w.raced == {}
  }

  /** What the proof needs of the invariant. */
  predicate Grounds(w: World) {
    && FailsClosed(w)
    && (forall t :: t in w.threads && w.threads[t].pc.AwaitPromote? ==>
          w.c.preparing.Some? && w.c.preparing.value.id == t)
    && (forall t :: t in w.threads && w.threads[t].leased ==> w.c.active == Some(t))
    && (w.c.active.Some? ==> w.c.active.value in w.threads)
  }

  lemma InvGrounds(w: World)
    requires Inv(w)
    ensures Grounds(w)
  {
    forall t | t in w.threads
      ensures w.threads[t].pc.AwaitPromote? ==> w.c.preparing.Some? && w.c.preparing.value.id == t
      ensures w.threads[t].leased ==> w.c.active == Some(t)
    {
      assert ThreadOk(w, t);
    }
  }

  // ------------------------------------------------------ Steps of a thread

  /** Where a step that moves only its thread may leave it. */
  predicate MovesTo(w: World, before: Thread, th: Thread) {
    && th.role == before.role && !th.pc.AwaitDrain?
    && (th.pc.AwaitPromote? ==> th.pc.first && th.sawJournal == JournalPresent(w))
  }

  lemma AdmissionLands(w: World, th: Thread, ch: Choice)
    requires Admitting(th.pc)
    ensures var s := Admission(w, th, ch);
      && (s.Stay? || s.Write? ==> MovesTo(w, th, s.thread))
      && !s.Replace?
  {
  }

  lemma ServiceLands(w: World, t: nat, th: Thread, ch: Choice)
    requires Serving(th.pc)
    ensures var s := Service(w, t, th, ch); s.Stay? || s.Write? || s.Replace? ==> MovesTo(w, th, s.thread)
  {
  }

  lemma ExitLands(w: World, t: nat, th: Thread, ch: Choice)
    requires Exiting(th.pc) && !th.pc.Transitioning?
    ensures var s := Exit(w, t, th, ch); s.Stay? || s.Write? || s.Replace? ==> MovesTo(w, th, s.thread)
  {
    if th.pc.Confirming? {
      ResumeLands(w, th, th.pc.goal, th.pc.after, S.Shows(w.st.operations, th.request.operation, th.pc.goal));
    }
  }

  lemma TransitionLands(w: World, th: Thread, goal: S.Goal, after: After, ch: Choice)
    ensures var s := Transition(w, th, goal, after, ch); (s.Stay? || s.Write?) && MovesTo(w, th, s.thread)
  {
    ResumeLands(w, th, goal, after, true);
  }

  lemma ResumeLands(w: World, th: Thread, goal: S.Goal, after: After, ok: bool)
    ensures MovesTo(w, th, Resume(th, goal, after, ok))
  {
  }

  lemma ErrandLands(w: World, t: nat, th: Thread, ch: Choice)
    requires !Admitting(th.pc) && !Serving(th.pc) && !Exiting(th.pc)
    ensures var s := Errand(w, t, th, ch); (s.Stay? ==> MovesTo(w, th, s.thread)) && !s.Write? && !s.Replace?
  {
  }

  lemma MovingStaysOrderly(w: World, t: nat, step: Step)
    requires Orderly(w) && Grounds(w) && t in w.threads && w.author.Keys >= w.st.operations.Keys
    requires step.Stay? || step.Write?
    requires MovesTo(w, w.threads[t], step.thread)
    ensures Orderly(Perform(w, t, step))
  {
  }

  lemma LeavingStaysOrderly(w: World, t: nat, step: Step)
    requires Orderly(w) && Grounds(w) && t in w.threads && w.author.Keys >= w.st.operations.Keys
    requires (step.Leave? || step.WriteLast?) && w.c.active != Some(t)
    ensures Orderly(Perform(w, t, step))
  {
  }

  /** Only a worker or a mutation writes the journal, never a repair. */
  lemma ReplacingStaysOrderly(w: World, t: nat, step: Step)
    requires Orderly(w) && Grounds(w) && t in w.threads && w.author.Keys >= w.st.operations.Keys
    requires step.Replace? && MovesTo(w, w.threads[t], step.thread) && w.c.active == Some(t)
    requires step.journal.Some? ==> !w.threads[t].role.Repairer?
    ensures Orderly(Perform(w, t, step))
  {
  }

  // ------------------------------------------- Sections of the coordinator

  /** Same holders, same lease, and no flag dropped over a journal. */
  predicate SameHolders(w: World, d: C.Coord) {
    && d.lease == w.c.lease && d.active == w.c.active
    && (w.journal.Some? && w.c.journalPending ==> d.journalPending)
  }

  lemma FlaggingStaysOrderly(w: World, t: nat, d: C.Coord, th: Thread)
    requires Orderly(w) && Grounds(w) && t in w.threads && w.author.Keys >= w.st.operations.Keys && SameHolders(w, d)
    requires th.role == w.threads[t].role && !th.pc.AwaitDrain? && !th.pc.AwaitPromote? && !th.pc.Admitted?
    ensures Orderly(Perform(w, t, Coordinate(d, th)))
  {
  }

  lemma WaitingStaysOrderly(w: World, t: nat, d: C.Coord, pc: PC)
    requires Orderly(w) && Grounds(w) && t in w.threads && w.author.Keys >= w.st.operations.Keys && SameHolders(w, d)
    requires pc.AwaitDrain? ==> w.threads[t].pc.AwaitDrain?
    requires pc.AwaitPromote? ==> w.c.active.Some? && pc == AwaitPromote(false)
    ensures Orderly(Perform(w, t, Wait(d, pc)))
  {
  }

  lemma DepartingStaysOrderly(w: World, t: nat, d: C.Coord)
    requires Orderly(w) && Grounds(w) && t in w.threads && w.author.Keys >= w.st.operations.Keys
    requires (d.active == w.c.active && d.active != Some(t)) || d.active.None?
    requires w.journal.Some? && w.c.journalPending ==> d.journalPending
    requires d.lease == w.c.lease || (w.marker && !C.Busy(w.c))
    ensures Orderly(Perform(w, t, Depart(d)))
  {
  }

  /** The heart of it: a leased promotion finds no journal that is not known. */
  lemma PromotingStaysOrderly(w: World, t: nat, th: Thread, first: bool)
    requires Orderly(w) && Grounds(w) && t in w.threads && w.author.Keys >= w.st.operations.Keys
    requires th == w.threads[t] && th.pc == AwaitPromote(first) && th.role.Requester? && th.request.id == t
    requires w.c.active.None? && C.Promotable(Observed(w, th, first), th.request)
    ensures w.journal.None?
    ensures Orderly(Perform(w, t,
                            Coordinate(C.Promoted(Observed(w, th, first), th.request, th.job),
                                       th.(pc := Admitted, leased := true))))
  {
    assert ReadCurrent(w, th);
  }

  lemma BeginningStaysOrderly(w: World, t: nat, th: Thread, d: C.Coord)
    requires Orderly(w) && Grounds(w) && t in w.threads && w.author.Keys >= w.st.operations.Keys && th == w.threads[t]
    requires !C.Busy(w.c) && d.lease == w.c.lease && d.active == Some(t) && (w.c.journalPending ==> d.journalPending)
    requires (th.pc.AwaitBegin? && !w.c.closed) || (th.pc.AwaitRecovery? && th.role.Repairer? && d.journalPending)
    ensures Orderly(Perform(w, t,
                            Coordinate(d,
                                       th.(pc := if th.pc.AwaitBegin? then Working else ReadingJournal,
                                           leased := true))))
  {
  }

  // -------------------------------------------------------------- Any step

  ghost predicate Set(w: World, t: nat, th: Thread) {
    && Orderly(w) && Grounds(w) && t in w.threads && th == w.threads[t] && ThreadOk(w, t)
    && w.author.Keys >= w.st.operations.Keys
  }

  lemma PrepareOrderly(w: World, t: nat, th: Thread, first: bool)
    requires Set(w, t, th) && th.pc == AwaitPrepare(first)
    ensures Orderly(Perform(w, t, PrepareTurn(w, th, first)))
  {
    match PrepareTurn(w, th, first)
    case Wait(d, pc) => WaitingStaysOrderly(w, t, d, pc);
    case Coordinate(d, next) => FlaggingStaysOrderly(w, t, d, next);
    case Depart(d) => DepartingStaysOrderly(w, t, d);
  }

  lemma PromoteOrderly(w: World, t: nat, th: Thread, first: bool, claimed: bool)
    requires Set(w, t, th) && th.pc == AwaitPromote(first)
    ensures Orderly(Perform(w, t, PromoteTurn(w, th, first, claimed)))
  {
    var d := Observed(w, th, first);
    match C.PromoteTurn(d, th.request, th.job, claimed).1
    case Waiting => WaitingStaysOrderly(w, t, d, AwaitPromote(false));
    case Granted => PromotingStaysOrderly(w, t, th, first);
    case NotPending => FlaggingStaysOrderly(w, t, d, Reject(th, 409));
    case Refused => FlaggingStaysOrderly(w, t, d, Reject(th, 503));
  }

  lemma BeginOrderly(w: World, t: nat, th: Thread)
    requires Set(w, t, th) && th.pc.AwaitBegin?
    ensures Orderly(Perform(w, t, BeginTurn(w, t, th)))
  {
    match BeginTurn(w, t, th)
    case Wait(d, pc) => WaitingStaysOrderly(w, t, d, pc);
    case Coordinate(d, next) => BeginningStaysOrderly(w, t, th, d);
    case Depart(d) => DepartingStaysOrderly(w, t, d);
  }

  lemma BeginRecoveryOrderly(w: World, t: nat, th: Thread)
    requires Set(w, t, th) && th.pc.AwaitRecovery?
    ensures Orderly(Perform(w, t, BeginRecoveryTurn(w, t, th)))
  {
    match BeginRecoveryTurn(w, t, th)
    case Wait(d, pc) => WaitingStaysOrderly(w, t, d, pc);
    case Coordinate(d, next) => BeginningStaysOrderly(w, t, th, d);
    case Depart(d) => DepartingStaysOrderly(w, t, d);
  }

  lemma DrainOrderly(w: World, t: nat, th: Thread, ch: Choice)
    requires Set(w, t, th) && th.pc.AwaitDrain?
    ensures Orderly(Perform(w, t, DrainTurn(w, ch)))
  {
    match DrainTurn(w, ch)
    case Wait(d, pc) => WaitingStaysOrderly(w, t, d, pc);
    case Depart(d) => DepartingStaysOrderly(w, t, d);
  }

  lemma AdmissionOrderly(w: World, t: nat, th: Thread, ch: Choice)
    requires Set(w, t, th) && Admitting(th.pc)
    ensures Orderly(Perform(w, t, Admission(w, th, ch)))
  {
    if th.pc.AwaitPrepare? {
      PrepareOrderly(w, t, th, th.pc.first);
    } else {
      AdmissionLands(w, th, ch);
      AdmissionIsPlain(w, th, ch);
      var step := Admission(w, th, ch);
      if step.Stay? || step.Write? { MovingStaysOrderly(w, t, step); } else { LeavingStaysOrderly(w, t, step); }
    }
  }

  lemma AdmissionIsPlain(w: World, th: Thread, ch: Choice)
    requires Admitting(th.pc) && !th.pc.AwaitPrepare?
    ensures var s := Admission(w, th, ch); s.Stay? || s.Write? || s.Leave? || s.WriteLast?
  {
  }

  lemma WritingOrderly(w: World, t: nat, th: Thread, ch: Choice)
    requires Set(w, t, th) && th.pc.Working?
    ensures Orderly(Perform(w, t, Work(w, t, th, ch)))
  {
    ServiceLands(w, t, th, ch);
    var step := Work(w, t, th, ch);
    if step.Stay? { MovingStaysOrderly(w, t, step); } else { ReplacingStaysOrderly(w, t, step); }
  }

  lemma ServiceOrderly(w: World, t: nat, th: Thread, ch: Choice)
    requires Set(w, t, th) && Serving(th.pc)
    ensures Orderly(Perform(w, t, Service(w, t, th, ch)))
  {
    var step := Service(w, t, th, ch);
    match th.pc
    case AwaitPromote(first) => PromoteOrderly(w, t, th, first, ch.ok);
    case Working => WritingOrderly(w, t, th, ch);
    case MarkingJournal => FlaggingStaysOrderly(w, t, C.MarkJournalPending(w.c), th.(pc := Journaled));
    case _ => ServiceLands(w, t, th, ch); MovingStaysOrderly(w, t, step);
  }

  lemma RemovingOrderly(w: World, t: nat, th: Thread, ch: Choice, purpose: Purpose)
    requires Set(w, t, th) && th.pc == Clearing(purpose)
    ensures Orderly(Perform(w, t, RemoveJournal(th, purpose, ch)))
  {
    ExitLands(w, t, th, ch);
    var step := RemoveJournal(th, purpose, ch);
    if step.Stay? { MovingStaysOrderly(w, t, step); } else { ReplacingStaysOrderly(w, t, step); }
  }

  lemma CompletingOrderly(w: World, t: nat, th: Thread)
    requires Set(w, t, th) && th.pc.Completing?
    ensures Orderly(Perform(w, t, Complete(w, t, th)))
  {
    var d := C.Complete(w.c, t, th.confirmed);
    if th.leased { FlaggingStaysOrderly(w, t, d, th.(pc := Releasing)); } else { DepartingStaysOrderly(w, t, d); }
  }

  lemma ReleasingOrderly(w: World, t: nat, th: Thread)
    requires Set(w, t, th) && th.pc.Releasing?
    ensures Orderly(Perform(w, t, Depart(C.Done(w.c, t, JournalPresent(w)))))
  {
    DepartingStaysOrderly(w, t, C.Done(w.c, t, JournalPresent(w)));
  }

  lemma ExitOrderly(w: World, t: nat, th: Thread, ch: Choice)
    requires Set(w, t, th) && Exiting(th.pc)
    ensures Orderly(Perform(w, t, Exit(w, t, th, ch)))
  {
    var step := Exit(w, t, th, ch);
    match th.pc
    case Clearing(purpose) => RemovingOrderly(w, t, th, ch, purpose);
    case ClearingPending(purpose) =>
      FlaggingStaysOrderly(w, t, C.ClearJournalPending(w.c, w.marker), th.(pc := AfterClearing(purpose, true)));
    case MarkingWork => FlaggingStaysOrderly(w, t, C.MarkSettlementPending(w.c), th.(pc := Releasing));
    case Releasing => ReleasingOrderly(w, t, th);
    case Completing => CompletingOrderly(w, t, th);
    case Finishing =>
      if th.confirmed { MovingStaysOrderly(w, t, Stay(th.(pc := Completing))); }
      else { FlaggingStaysOrderly(w, t, C.MarkSettlementPending(w.c), th.(pc := Completing)); }
    case Transitioning(goal, after) => TransitionLands(w, th, goal, after, ch); MovingStaysOrderly(w, t, step);
    case _ => ExitLands(w, t, th, ch); MovingStaysOrderly(w, t, step);
  }

  lemma ErrandOrderly(w: World, t: nat, th: Thread, ch: Choice)
    requires Set(w, t, th) && !Admitting(th.pc) && !Serving(th.pc) && !Exiting(th.pc)
    ensures Orderly(Perform(w, t, Errand(w, t, th, ch)))
  {
    var step := Errand(w, t, th, ch);
    match th.pc
    case AwaitBegin => BeginOrderly(w, t, th);
    case AwaitRecovery => BeginRecoveryOrderly(w, t, th);
    case AwaitDrain => DrainOrderly(w, t, th, ch);
    case _ => ErrandLands(w, t, th, ch); MovingStaysOrderly(w, t, step);
  }

  lemma ActStaysOrderly(w: World, t: nat, ch: Choice)
    requires Inv(w) && Orderly(w) && Enabled(w, Act(t, ch))
    ensures Orderly(Perform(w, t, Next(w, t, ch)))
  {
    InvGrounds(w);
    assert ThreadOk(w, t);
    NextStaysOrderly(w, t, w.threads[t], ch);
  }

  lemma NextStaysOrderly(w: World, t: nat, th: Thread, ch: Choice)
    requires Set(w, t, th)
    ensures Orderly(Perform(w, t, Next(w, t, ch)))
  {
    if Admitting(th.pc) { AdmissionOrderly(w, t, th, ch); }
    else if Serving(th.pc) { ServiceOrderly(w, t, th, ch); }
    else if Exiting(th.pc) { ExitOrderly(w, t, th, ch); }
    else { ErrandOrderly(w, t, th, ch); }
  }

  lemma EventStaysOrderly(w: World, e: Event)
    requires Grounds(w) && Orderly(w) && Enabled(w, e) && !e.Act? && !Slips(w, e)
    requires w.next !in w.threads
    ensures Orderly(Apply(w, e))
  {
  }

  lemma EventOrderly(w: World, v: World, e: Event)
    requires Inv(w) && Steps(w, e, v) && Orderly(w) && !e.Act? && !Slips(w, e)
    ensures Orderly(v)
  {
    InvGrounds(w);
    NextIsFree(w);
    EventStaysOrderly(w, e);
  }

  lemma StepStaysOrderly(w: World, v: World, e: Event)
    requires Inv(w) && Steps(w, e, v) && Orderly(w) && !Slips(w, e)
    ensures Orderly(v)
  {
    if e.Act? { ActStaysOrderly(w, e.t, e.ch); } else { EventOrderly(w, v, e); }
  }

  // ----------------------------------------------------------------- Runs

  /** No event of the run slips a leave between the halves of an entry. */
  ghost predicate NoSlip(ws: seq<World>, es: seq<Event>, n: nat)
    requires n <= |es| < |ws|
  {
    forall k :: 0 <= k < n ==> !Slips(ws[k], es[k])
  }

  lemma OrderlyStep(ws: seq<World>, es: seq<Event>, n: nat)
    requires Run(ws, es) && n < |es| && Orderly(ws[n]) && !Slips(ws[n], es[n])
    ensures Orderly(ws[n + 1])
  {
    ReachableIsSafe(ws, es, n);
    assert StepAt(ws, es, n);
    StepStaysOrderly(ws[n], ws[n + 1], es[n]);
  }

  lemma {:induction false} ReachableIsOrderly(ws: seq<World>, es: seq<Event>, n: nat)
    requires Run(ws, es) && n <= |es| && NoSlip(ws, es, n)
    ensures Orderly(ws[n])
  {
    if n > 0 {
      ReachableIsOrderly(ws, es, n - 1);
      OrderlyStep(ws, es, n - 1);
    }
  }

  /** As long as maintenance is not left between the halves of an entry, no
      thread is ever promoted over a journal, whatever it read before. */
  lemma NobodyIsPromotedOverAJournal(ws: seq<World>, es: seq<Event>, n: nat)
    requires Run(ws, es) && n <= |es| && NoSlip(ws, es, n)
    ensures ws[n].raced == {}
  {
    ReachableIsOrderly(ws, es, n);
  }

  /** And then nothing is forgotten, without exception for such promotions. */
  lemma NothingIsForgottenInOrder(ws: seq<World>, es: seq<Event>, n: nat, id: string)
    requires Run(ws, es) && n <= |es| && NoSlip(ws, es, n)
    requires var v := ws[n]; v.up && id in v.st.operations && !IsTerminal(v.st.operations[id].status)
    ensures var v := ws[n];
      && id in v.author
      && (|| v.author[id] in v.threads
          || (v.st.operations[id].status.RecoveryRequired? && v.journal.Some? && v.journal.value.operation == id)
          || (v.c.settlementPending && v.c.closed)
          || v.author[id] in v.leaked)
  {
    NothingIsForgotten(ws, es, n, id);
    NobodyIsPromotedOverAJournal(ws, es, n);
  }

  /** And a worker that gives back its lease leaves its record finished, or
      waiting for the repair of its own journal with the barrier closed, or the
      settlement flag up. */
  lemma LeaseReturnsSettledInOrder(ws: seq<World>, es: seq<Event>, n: nat, t: nat, id: string)
    requires Run(ws, es) && n < |es| && NoSlip(ws, es, n)
    requires es[n].Act? && es[n].t == t && t in ws[n].threads
    requires ws[n].threads[t].pc.Releasing? && ws[n].threads[t].role.Requester?
    requires ws[n].threads[t].request.operation == id
    requires id != "" && Wrote(ws[n], t, id)
    ensures var v := ws[n + 1];
      && id in v.st.operations
      && (|| IsTerminal(v.st.operations[id].status)
          || (v.c.settlementPending && v.c.closed)
          || (v.st.operations[id].status.RecoveryRequired? && v.c.closed && v.journal.Some?
              && v.journal.value.operation == id))
  {
    ReachableIsSafe(ws, es, n);
    assert StepAt(ws, es, n);
    NobodyIsPromotedOverAJournal(ws, es, n);
    LeaseReturnsSettled(ws[n], t, es[n].ch);
    ReleaseRacesNobody(ws[n], t, es[n].ch);
  }

  lemma ReleaseRacesNobody(w: World, t: nat, ch: Choice)
    requires t in w.threads && w.threads[t].pc.Releasing? && w.author.Keys >= w.st.operations.Keys
    ensures Perform(w, t, Next(w, t, ch)).raced == w.raced
  {
  }

  /** In any run: when the record waits for recovery as the lease is given back,
      the journal on disk is somebody else's exactly if the worker was promoted
      over it. */
  lemma ForeignJournalIff(w: World, t: nat, id: string)
    requires Inv(w) && t in w.threads && w.threads[t].pc.Releasing? && w.threads[t].role.Requester?
    requires w.threads[t].request.operation == id && id != "" && Wrote(w, t, id)
    requires w.st.operations[id].status.RecoveryRequired? && !w.c.settlementPending
    ensures w.journal.Some? && (w.journal.value.operation != id <==> t in w.raced)
  {
    assert ThreadOk(w, t);
    ForeignJournal(w, t, id);
  }

  lemma ForeignJournal(w: World, t: nat, id: string)
    requires JournalOk(w) && t in w.threads && ThreadOk(w, t) && w.threads[t].pc.Releasing?
    requires w.threads[t].role.Requester?
    requires w.threads[t].request.operation == id && id != "" && Wrote(w, t, id)
    requires w.st.operations[id].status.RecoveryRequired? && !w.c.settlementPending
    ensures w.journal.Some? && (w.journal.value.operation != id <==> t in w.raced)
  {
  }
}
