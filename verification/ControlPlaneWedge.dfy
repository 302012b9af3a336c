/** The coordinator's belief that a journal is on disk: which events make it
    wrong, and that it then stays wrong until the process restarts. */
module ControlPlaneWedge {
  import opened Lifecycle
  import opened ControlPlane
  import opened ControlPlaneInvariant
  import opened ControlPlaneFrames
  import opened ControlPlaneSteps
  import opened ControlPlaneSafety
  import opened ControlPlaneTheorems
  import opened ControlPlaneOrderly
  import C = Coordination
  import S = OperationStore

  // ------------------------------------------------------------ Definitions

  /** A raised flag has its journal, or its owner is just about to lower it. */
  predicate Honest(w: World) {
    w.c.journalPending && w.journal.None? ==>
      w.c.active.Some? && w.c.active.value in w.threads && w.threads[w.c.active.value].pc.ClearingPending?
  }

  /** A thread merges its earlier sight of a journal that is gone by now. */
  predicate MergesStale(w: World, th: Thread) {
    ((th.pc.AwaitPrepare? && th.pc.first) || (th.pc.AwaitPromote? && th.pc.first))
    && th.sawJournal && w.journal.None? && w.c.active.None?
  }

  /** The owner's removal of a journal is visible, but its sync fails. */
  predicate LosesSync(w: World, th: Thread, ch: Choice) {
    th.pc.Clearing? && ch.outcome.CommittedUnsynced? && w.c.journalPending
  }

  predicate Breaks(w: World, e: Event) {
    e.Act? && e.t in w.threads && (MergesStale(w, w.threads[e.t]) || LosesSync(w, w.threads[e.t], e.ch))
  }

  ghost predicate Sure(w: World, t: nat, th: Thread) {
    && Honest(w) && Grounds(w) && t in w.threads && th == w.threads[t] && ThreadOk(w, t)
    && w.author.Keys >= w.st.operations.Keys
  }

  // ------------------------------------------------- Steps that keep it right

  lemma PlainStaysHonest(w: World, t: nat, th: Thread, step: Step)
    requires Sure(w, t, th) && (step.Stay? || step.Write? || step.Leave? || step.WriteLast?) && !th.pc.ClearingPending?
    ensures Honest(Perform(w, t, step))
  {
  }

  /** A section that raises the flag only over a journal. */
  lemma SectionStaysHonest(w: World, t: nat, th: Thread, step: Step)
    requires Sure(w, t, th) && (step.Coordinate? || step.Wait? || step.Depart?) && !th.pc.ClearingPending?
    requires var d := CoordAfter(w, step);
      && (d.journalPending && !w.c.journalPending ==> w.journal.Some?)
      && (|| d.active == w.c.active
          || w.c.active == Some(t)
          || (w.c.active.None? && (d.journalPending ==> w.journal.Some?)))
    ensures Honest(Perform(w, t, step))
  {
  }

  lemma WritingStaysHonest(w: World, t: nat, th: Thread, step: Step)
    requires Sure(w, t, th) && step.Replace? && step.journal.Some?
    ensures Honest(Perform(w, t, step))
  {
  }

  // ------------------------------------------------------------ Step by step

  lemma PrepareHonestIff(w: World, t: nat, th: Thread, first: bool)
    requires Sure(w, t, th) && th.pc == AwaitPrepare(first)
    ensures Honest(Perform(w, t, PrepareTurn(w, th, first))) <==> !MergesStale(w, th)
  {
    var step := PrepareTurn(w, th, first);
    CoordAfterIs(w, t, step);
    if !MergesStale(w, th) { SectionStaysHonest(w, t, th, step); }
  }

  lemma PromoteHonestIff(w: World, t: nat, th: Thread, first: bool, claimed: bool)
    requires Sure(w, t, th) && th.pc == AwaitPromote(first)
    ensures Honest(Perform(w, t, PromoteTurn(w, th, first, claimed))) <==> !MergesStale(w, th)
  {
    var step := PromoteTurn(w, th, first, claimed);
    CoordAfterIs(w, t, step);
    if !MergesStale(w, th) { SectionStaysHonest(w, t, th, step); }
  }

  lemma RemoveHonestIff(w: World, t: nat, th: Thread, ch: Choice, purpose: Purpose)
    requires Sure(w, t, th) && th.pc == Clearing(purpose)
    ensures Honest(Perform(w, t, RemoveJournal(th, purpose, ch))) <==> !LosesSync(w, th, ch)
  {
    match ch.outcome
    case NotCommitted => PlainStaysHonest(w, t, th, RemoveJournal(th, purpose, ch));
    case Persisted => RemovedStaysHonest(w, t, th, th.(pc := ClearingPending(purpose)));
    case CommittedUnsynced => UnsyncedHonestIff(w, t, th, th.(pc := AfterClearing(purpose, false)));
  }

  lemma RemovedStaysHonest(w: World, t: nat, th: Thread, next: Thread)
    requires Sure(w, t, th) && th.pc.Clearing? && next.pc.ClearingPending?
    ensures Honest(Perform(w, t, Replace(None, next)))
  {
  }

  lemma UnsyncedHonestIff(w: World, t: nat, th: Thread, next: Thread)
    requires Sure(w, t, th) && th.pc.Clearing? && !next.pc.ClearingPending?
    ensures Honest(Perform(w, t, Replace(None, next))) <==> !w.c.journalPending
  {
  }

  lemma AdmissionHonestIff(w: World, t: nat, th: Thread, ch: Choice)
    requires Sure(w, t, th) && Admitting(th.pc)
    ensures Honest(Perform(w, t, Admission(w, th, ch))) <==> !MergesStale(w, th)
  {
    if th.pc.AwaitPrepare? {
      PrepareHonestIff(w, t, th, th.pc.first);
    } else {
      AdmissionIsPlain(w, th, ch);
      PlainStaysHonest(w, t, th, Admission(w, th, ch));
    }
  }

  lemma ServiceHonestIff(w: World, t: nat, th: Thread, ch: Choice)
    requires Sure(w, t, th) && Serving(th.pc)
    ensures Honest(Perform(w, t, Service(w, t, th, ch))) <==> !MergesStale(w, th)
  {
    var step := Service(w, t, th, ch);
    match th.pc
    case AwaitPromote(first) => PromoteHonestIff(w, t, th, first, ch.ok);
    case Working => if step.Stay? { PlainStaysHonest(w, t, th, step); } else { WritingStaysHonest(w, t, th, step); }
    case MarkingJournal => SectionStaysHonest(w, t, th, step);
    case _ => PlainStaysHonest(w, t, th, step);
  }

  lemma ExitHonestIff(w: World, t: nat, th: Thread, ch: Choice)
    requires Sure(w, t, th) && Exiting(th.pc)
    ensures Honest(Perform(w, t, Exit(w, t, th, ch))) <==> !LosesSync(w, th, ch)
  {
    var step := Exit(w, t, th, ch);
    match th.pc
    case Clearing(purpose) => RemoveHonestIff(w, t, th, ch, purpose);
    case ClearingPending(purpose) =>
    case Transitioning(goal, after) => TransitionLands(w, th, goal, after, ch); PlainStaysHonest(w, t, th, step);
    case Confirming(_, _) => PlainStaysHonest(w, t, th, step);
    case Settling => PlainStaysHonest(w, t, th, step);
    case Finishing => if th.confirmed { PlainStaysHonest(w, t, th, step); } else { SectionStaysHonest(w, t, th, step); }
    case _ => SectionStaysHonest(w, t, th, step);
  }

  lemma ErrandStaysHonest(w: World, t: nat, th: Thread, ch: Choice)
    requires Sure(w, t, th) && !Admitting(th.pc) && !Serving(th.pc) && !Exiting(th.pc)
    ensures Honest(Perform(w, t, Errand(w, t, th, ch)))
  {
    var step := Errand(w, t, th, ch);
    match th.pc
    case AwaitBegin => SectionStaysHonest(w, t, th, step);
    case AwaitRecovery => SectionStaysHonest(w, t, th, step);
    case AwaitDrain => SectionStaysHonest(w, t, th, step);
    case _ => PlainStaysHonest(w, t, th, step);
  }

  lemma NextHonestIff(w: World, t: nat, th: Thread, ch: Choice)
    requires Sure(w, t, th)
    ensures Honest(Perform(w, t, Next(w, t, ch))) <==> !MergesStale(w, th) && !LosesSync(w, th, ch)
  {
    if Admitting(th.pc) { AdmissionHonestIff(w, t, th, ch); }
    else if Serving(th.pc) { ServiceHonestIff(w, t, th, ch); }
    else if Exiting(th.pc) { ExitHonestIff(w, t, th, ch); }
    else { ErrandStaysHonest(w, t, th, ch); }
  }

  lemma EventStaysHonest(w: World, e: Event)
    requires Grounds(w) && Honest(w) && Enabled(w, e) && !e.Act? && w.next !in w.threads
    ensures Honest(Apply(w, e))
  {
  }

  /** The exact condition: an event makes an honest flag wrong if and only if a
      thread merges a sight of a journal that is gone, with nobody at work, or an
      owner's removal of its journal is visible but not synced. */
  lemma FlagGoesWrongIff(w: World, v: World, e: Event)
    requires Inv(w) && Honest(w) && Steps(w, e, v)
    ensures Honest(v) <==> !Breaks(w, e)
  {
    InvGrounds(w);
    if e.Act? {
      assert ThreadOk(w, e.t);
      NextHonestIff(w, e.t, w.threads[e.t], e.ch);
    } else {
      NextIsFree(w);
      EventStaysHonest(w, e);
    }
  }

  // -------------------------------------------------------- Wrong for good

  /** The holder is past its journal: a worker on its way out, or a repair that
      is about to find nothing. */
  predicate PastTheJournal(pc: PC) {
    || pc.Judging? || pc.MarkingWork? || pc.Releasing? || pc.ReadingJournal?
    || (pc.Transitioning? && pc.after.AfterWork?) || (pc.Confirming? && pc.after.AfterWork?)
  }

  /** The coordinator expects a journal that is not there, and the barrier is
      closed, or will be when the holder is gone. */
  predicate Wedged(w: World) {
    && w.up && w.c.journalPending && w.journal.None?
    && (w.c.active.None? ==> w.c.closed)
    && (w.c.active.Some? ==> w.c.active.value in w.threads && PastTheJournal(w.threads[w.c.active.value].pc))
  }

  lemma WedgedIsNotHonest(w: World)
    requires Wedged(w)
    ensures !Honest(w)
  {
  }

  lemma StaleMergeWedges(w: World, t: nat, th: Thread, ch: Choice)
    requires Sure(w, t, th) && w.up && MergesStale(w, th)
    ensures Wedged(Perform(w, t, Next(w, t, ch)))
  {
    if th.pc.AwaitPrepare? { StalePrepareWedges(w, t, th); } else { StalePromoteWedges(w, t, th, ch.ok); }
  }

  lemma StalePrepareWedges(w: World, t: nat, th: Thread)
    requires Sure(w, t, th) && w.up && MergesStale(w, th) && th.pc.AwaitPrepare?
    ensures Wedged(Perform(w, t, PrepareTurn(w, th, true)))
  {
    CoordAfterIs(w, t, PrepareTurn(w, th, true));
  }

  lemma StalePromoteWedges(w: World, t: nat, th: Thread, claimed: bool)
    requires Sure(w, t, th) && w.up && MergesStale(w, th) && th.pc.AwaitPromote?
    ensures Wedged(Perform(w, t, PromoteTurn(w, th, true, claimed)))
  {
    CoordAfterIs(w, t, PromoteTurn(w, th, true, claimed));
  }

  lemma LostSyncWedges(w: World, t: nat, th: Thread, ch: Choice)
    requires Sure(w, t, th) && w.up && LosesSync(w, th, ch)
    ensures Wedged(Perform(w, t, Next(w, t, ch)))
  {
  }

  lemma BreakingWedges(w: World, v: World, e: Event)
    requires Inv(w) && Honest(w) && Steps(w, e, v) && Breaks(w, e)
    ensures Wedged(v)
  {
    InvGrounds(w);
    assert ThreadOk(w, e.t);
    if MergesStale(w, w.threads[e.t]) {
      StaleMergeWedges(w, e.t, w.threads[e.t], e.ch);
    } else {
      LostSyncWedges(w, e.t, w.threads[e.t], e.ch);
    }
  }

  // The flag is lowered, and the journal touched, only by an owner.

  /** The step lowers neither flag nor touches the journal. */
  predicate KeepsFlags(w: World, step: Step) {
    && !step.Replace?
    && (w.c.closed ==> CoordAfter(w, step).closed)
    && (w.c.journalPending ==> CoordAfter(w, step).journalPending)
  }

  lemma AdmissionKeepsFlags(w: World, th: Thread, ch: Choice)
    requires Admitting(th.pc)
    ensures KeepsFlags(w, Admission(w, th, ch))
  {
  }

  lemma ServiceKeepsFlags(w: World, t: nat, th: Thread, ch: Choice)
    requires Serving(th.pc) && !th.pc.Working?
    ensures KeepsFlags(w, Service(w, t, th, ch))
  {
  }

  lemma ExitKeepsFlags(w: World, t: nat, th: Thread, ch: Choice)
    requires Exiting(th.pc) && !th.pc.Clearing? && !th.pc.ClearingPending?
    ensures KeepsFlags(w, Exit(w, t, th, ch))
  {
  }

  lemma ErrandKeepsFlags(w: World, t: nat, th: Thread, ch: Choice)
    requires !Admitting(th.pc) && !Serving(th.pc) && !Exiting(th.pc)
    ensures KeepsFlags(w, Errand(w, t, th, ch))
  {
  }

  lemma OnlyOwnersTouchTheJournal(w: World, t: nat, ch: Choice)
    requires t in w.threads
    requires var pc := w.threads[t].pc; !pc.Working? && !pc.Clearing? && !pc.ClearingPending?
    ensures KeepsFlags(w, Next(w, t, ch))
  {
    var th := w.threads[t];
    if Admitting(th.pc) { AdmissionKeepsFlags(w, th, ch); }
    else if Serving(th.pc) { ServiceKeepsFlags(w, t, th, ch); }
    else if Exiting(th.pc) { ExitKeepsFlags(w, t, th, ch); }
    else { ErrandKeepsFlags(w, t, th, ch); }
  }

  lemma FlagsAfter(w: World, t: nat, step: Step)
    requires t in w.threads && w.author.Keys >= w.st.operations.Keys && KeepsFlags(w, step)
    ensures var v := Perform(w, t, step);
      v.up == w.up && v.journal == w.journal && (w.c.closed ==> v.c.closed)
      && (w.c.journalPending ==> v.c.journalPending)
  {
  }

  lemma WedgeFlagsStay(w: World, v: World, e: Event)
    requires ThreadsOk(w) && Wedged(w) && Steps(w, e, v) && e.Act?
    ensures v.up && v.c.journalPending && v.journal.None? && (w.c.closed ==> v.c.closed)
  {
    assert ThreadOk(w, e.t);
    OnlyOwnersTouchTheJournal(w, e.t, e.ch);
    FlagsAfter(w, e.t, Next(w, e.t, e.ch));
  }

  /** Where a holder past the journal goes: on, or away with the barrier closed. */
  ghost predicate StaysPast(w: World, t: nat, step: Step) {
    || ((step.Stay? || step.Write? || step.Coordinate?) && PastTheJournal(step.thread.pc)
        && CoordAfter(w, step).active == w.c.active)
    || (step.Depart? && step.c.active.None? && step.c.closed)
  }

  lemma PastStaysPast(w: World, t: nat, th: Thread, ch: Choice)
    requires t in w.threads && th == w.threads[t] && Wedged(w) && w.c.active == Some(t) && Relies(w, t)
    ensures StaysPast(w, t, Next(w, t, ch))
  {
    match th.pc
    case Transitioning(goal, after) => TransitionStaysPast(w, t, th, goal, ch);
    case _ =>
  }

  lemma TransitionStaysPast(w: World, t: nat, th: Thread, goal: S.Goal, ch: Choice)
    requires !goal.status.Succeeded?
    ensures StaysPast(w, t, Transition(w, th, goal, AfterWork, ch))
  {
  }

  lemma HolderStaysPast(w: World, t: nat, step: Step)
    requires t in w.threads && w.author.Keys >= w.st.operations.Keys && w.c.active == Some(t) && StaysPast(w, t, step)
    ensures var v := Perform(w, t, step);
      || (v.c.active.None? && v.c.closed)
      || (v.c.active == Some(t) && t in v.threads && PastTheJournal(v.threads[t].pc))
  {
  }

  lemma WedgeAdmitsOnlyRepair(w: World, v: World, e: Event, th: Thread)
    requires ThreadsOk(w) && Wedged(w) && Steps(w, e, v) && e.Act? && th == w.threads[e.t] && w.c.active != Some(e.t)
    ensures v.c.active == w.c.active || (v.c.active == Some(e.t) && th.pc.AwaitRecovery? && w.c.active.None?)
            || (v.c.active.None? && w.c.active.None?)
  {
    assert ThreadOk(w, e.t);
    ActKeepsTheHolders(w, v, e, th);
    if w.c.active.Some? { OnlyHoldersRelease(w, v, e, th); }
  }

  lemma OnlyHoldersRelease(w: World, v: World, e: Event, th: Thread)
    requires ThreadsOk(w) && Steps(w, e, v) && e.Act? && th == w.threads[e.t] && w.c.active.Some?
    requires w.c.active != Some(e.t)
    ensures v.c.active == w.c.active || v.c.active.Some?
  {
    assert ThreadOk(w, e.t);
    CoordAfterIs(w, e.t, Next(w, e.t, e.ch));
    if Exiting(th.pc) { ExitReleasesOwn(w, e.t, th, e.ch); }
    else { OthersReleaseNothing(w, e.t, th, e.ch); }
  }

  lemma ExitReleasesOwn(w: World, t: nat, th: Thread, ch: Choice)
    requires Exiting(th.pc) && w.c.active != Some(t)
    ensures CoordAfter(w, Exit(w, t, th, ch)).active == w.c.active
  {
  }

  lemma OthersReleaseNothing(w: World, t: nat, th: Thread, ch: Choice)
    requires t in w.threads && th == w.threads[t] && !Exiting(th.pc) && w.c.active.Some?
    ensures CoordAfter(w, Next(w, t, ch)).active.Some?
  {
    if Admitting(th.pc) { AdmissionKeepsTheLease(w, th, ch); }
    else if Serving(th.pc) { ServiceKeepsTheLease(w, t, th, ch); }
    else { ErrandKeepsTheLease(w, t, th, ch); }
  }

  lemma RecoveryStartsReading(w: World, t: nat, th: Thread)
    requires t in w.threads && th == w.threads[t] && th.pc.AwaitRecovery? && w.author.Keys >= w.st.operations.Keys
    requires w.c.active != Some(t) && Perform(w, t, BeginRecoveryTurn(w, t, th)).c.active == Some(t)
    ensures var v := Perform(w, t, BeginRecoveryTurn(w, t, th)); t in v.threads && v.threads[t].pc.ReadingJournal?
  {
  }

  lemma OthersStayPut(w: World, t: nat, step: Step, u: nat)
    requires t in w.threads && w.author.Keys >= w.st.operations.Keys && u in w.threads && u != t
    ensures u in Perform(w, t, step).threads && Perform(w, t, step).threads[u] == w.threads[u]
  {
  }

  lemma HolderStaysWedged(w: World, v: World, e: Event)
    requires ThreadsOk(w) && Wedged(w) && Steps(w, e, v) && e.Act? && w.c.active == Some(e.t)
    ensures Wedged(v)
  {
    assert ThreadOk(w, e.t);
    WedgeFlagsStay(w, v, e);
    PastStaysPast(w, e.t, w.threads[e.t], e.ch);
    HolderStaysPast(w, e.t, Next(w, e.t, e.ch));
  }

  lemma OtherStaysWedged(w: World, v: World, e: Event)
    requires ThreadsOk(w) && Wedged(w) && Steps(w, e, v) && e.Act? && w.c.active != Some(e.t)
    ensures Wedged(v)
  {
    var th := w.threads[e.t];
    WedgeFlagsStay(w, v, e);
    WedgeAdmitsOnlyRepair(w, v, e, th);
    if w.c.active.Some? { OthersStayPut(w, e.t, Next(w, e.t, e.ch), w.c.active.value); }
    if v.c.active == Some(e.t) { RecoveryStartsReading(w, e.t, th); }
  }

  lemma EventStaysWedged(w: World, v: World, e: Event)
    requires ThreadsOk(w) && w.next !in w.threads && Wedged(w) && Steps(w, e, v) && !e.Restart? && !e.Act?
    ensures Wedged(v)
  {
  }

  /** Every event but a restart leaves a wedged control plane wedged. */
  lemma WedgeStays(w: World, v: World, e: Event)
    requires Inv(w) && Wedged(w) && Steps(w, e, v) && !e.Restart?
    ensures Wedged(v)
  {
    if !e.Act? {
      NextIsFree(w);
      EventStaysWedged(w, v, e);
    } else if w.c.active == Some(e.t) {
      HolderStaysWedged(w, v, e);
    } else {
      OtherStaysWedged(w, v, e);
    }
  }

  // ------------------------------------------------------------------- Runs

  /** The flag went wrong at some event, and the process has not restarted since. */
  ghost predicate BrokenSince(ws: seq<World>, es: seq<Event>, n: nat)
    requires n <= |es| < |ws|
  {
    exists k :: 0 <= k < n && Breaks(ws[k], es[k]) && NoRestart(es, k, n)
  }

  lemma RestartIsHonest(w: World, v: World, e: Event)
    requires Steps(w, e, v) && e.Restart?
    ensures Honest(v)
  {
  }

  /** One event's worth of the characterisation below. */
  lemma WrongStep(w: World, v: World, e: Event)
    requires Inv(w) && Steps(w, e, v) && (Honest(w) || Wedged(w))
    ensures Honest(v) || Wedged(v)
    ensures !Honest(v) <==> !e.Restart? && (!Honest(w) || Breaks(w, e))
  {
    if e.Restart? {
      RestartIsHonest(w, v, e);
    } else if Honest(w) {
      FlagGoesWrongIff(w, v, e);
      if Breaks(w, e) { BreakingWedges(w, v, e); }
    } else {
      WedgeStays(w, v, e);
      WedgedIsNotHonest(v);
    }
  }

  lemma WrongStepAt(ws: seq<World>, es: seq<Event>, n: nat)
    requires Run(ws, es) && n < |es| && (Honest(ws[n]) || Wedged(ws[n]))
    ensures Honest(ws[n + 1]) || Wedged(ws[n + 1])
    ensures !Honest(ws[n + 1]) <==> !es[n].Restart? && (!Honest(ws[n]) || Breaks(ws[n], es[n]))
  {
    ReachableIsSafe(ws, es, n);
    assert StepAt(ws, es, n);
    WrongStep(ws[n], ws[n + 1], es[n]);
  }

  lemma BrokenSinceStep(ws: seq<World>, es: seq<Event>, n: nat)
    requires n < |es| < |ws|
    ensures BrokenSince(ws, es, n + 1) <==> !es[n].Restart? && (BrokenSince(ws, es, n) || Breaks(ws[n], es[n]))
  {
    if BrokenSince(ws, es, n + 1) {
      var k :| 0 <= k < n + 1 && Breaks(ws[k], es[k]) && NoRestart(es, k, n + 1);
      assert NoRestart(es, k, n);
    }
    if !es[n].Restart? && BrokenSince(ws, es, n) {
      var k :| 0 <= k < n && Breaks(ws[k], es[k]) && NoRestart(es, k, n);
      assert NoRestart(es, k, n + 1);
    }
    if !es[n].Restart? && Breaks(ws[n], es[n]) {
      assert NoRestart(es, n, n + 1);
    }
  }

  /** Over every run: the control plane is wedged exactly if one of the two
      breaking events has happened since the last restart, and is honest
      otherwise; and it is never anything else. */
  lemma {:induction false} WedgedIff(ws: seq<World>, es: seq<Event>, n: nat)
    requires Run(ws, es) && n <= |es|
    ensures Wedged(ws[n]) <==> BrokenSince(ws, es, n)
    ensures Honest(ws[n]) <==> !BrokenSince(ws, es, n)
  {
    if n > 0 {
      WedgedIff(ws, es, n - 1);
      WrongStepAt(ws, es, n - 1);
      BrokenSinceStep(ws, es, n - 1);
    }
    if Wedged(ws[n]) { WedgedIsNotHonest(ws[n]); }
  }

  /** Only a restart opens a wedged control plane again. */
  lemma {:induction false} WedgeLastsUntilRestart(ws: seq<World>, es: seq<Event>, i: nat, j: nat)
    requires Run(ws, es) && i <= j <= |es| && NoRestart(es, i, j) && Wedged(ws[i])
    ensures Wedged(ws[j])
    decreases j
  {
    if i < j {
      WedgeLastsUntilRestart(ws, es, i, j - 1);
      WedgedIsNotHonest(ws[j - 1]);
      WrongStepAt(ws, es, j - 1);
    }
  }

  /** And meanwhile, once nobody holds the lease: no way of leaving maintenance
      opens the barrier, and nothing but a repair that finds nothing is admitted. */
  lemma WedgedMeansClosed(w: World, p: C.Preparation, id: nat, removed: bool)
    requires Wedged(w) && w.c.active.None?
    ensures C.PrepareTurn(w.c, p).1 == C.Refused
    ensures C.BeginTurn(w.c, id, JournalPresent(w), true).1 == C.Refused
    ensures C.Leave(w.c, JournalPresent(w), removed).1 in {C.NotDrained, C.SettlementRequired, C.RecoveryNeeded}
  {
  }
}
