/** The control plane beside its in-memory job table: runs in which every answer
    about a job is the one that the table gives. */
module ControlPlaneJobs {
  import opened Lifecycle
  import opened ControlPlane
  import opened ControlPlaneInvariant
  import opened ControlPlaneSteps
  import opened ControlPlaneTheorems
  import C = Coordination
  import J = JobTable
  import S = OperationStore

  const NO_JOBS := J.Table(map[], map[])

  /** How a worker leaves its job: as its record, unless that could not be
      confirmed, in which case the settlement flag is up. */
  function Outcome(w: World, th: Thread, ch: Choice): Status {
    var id := th.request.operation;
    if id == "" then if ch.ok then Succeeded else Failed
    else if id in w.st.operations && (ch.ok || !w.c.settlementPending)
            && (IsTerminal(w.st.operations[id].status) || w.st.operations[id].status.RecoveryRequired?)
    then w.st.operations[id].status
    else Failed
  }

  /** Whether a promotion gets as far as claiming the job. */
  predicate Claims(w: World, th: Thread, first: bool) {
    C.PromoteTurn(Observed(w, th, first), th.request, th.job, true).1.Granted?
  }

  /** What a step asks of the job table. A reservation that is answered with an
      error has only pruned; a create keeps the job that was cancelled under it. */
  function Calls(w: World, th: Thread, ch: Choice): seq<J.Call> {
    match th.pc
    case ReserveJob =>
      if ch.pick == 0 then [J.ReserveCall(th.request.operation, th.request.fingerprint, [ch.job], ch.now)]
      else [J.LookupCall(ch.now)]
    case AwaitPromote(first) => if Claims(w, th, first) then [J.ClaimCall(th.job)] else []
    case Admitted =>
      if ch.ok then [] else [J.FinishCall(th.job, Cancelled, NoMessage, ch.now), J.DiscardCall(th.job)]
    case Confirming(goal, after) =>
      if after.AfterStart? && !S.Shows(w.st.operations, th.request.operation, goal)
      then [J.FinishCall(th.job, Failed, NoMessage, ch.now)] else []
    case Settling =>
      if th.leased || (th.request.kind.CreateKind? && th.http == 409) then [] else [J.DiscardCall(th.job)]
    case Releasing =>
      if th.role.Requester? then [J.FinishCall(th.job, Outcome(w, th, ch), NoMessage, ch.now)] else []
    case _ => []
  }

  function TableAfter(w: World, tab: J.Table, limits: J.Limits, e: Event): J.Table {
    match e
    case Act(t, ch) => if t in w.threads then J.Run(tab, limits, Calls(w, w.threads[t], ch)) else tab
    case Restart(_, _, _, _) => NO_JOBS
    case _ => tab
  }

  /** The step's answer is the table's; drawing a new id may fail at any time. */
  predicate TableSays(w: World, tab: J.Table, limits: J.Limits, th: Thread, ch: Choice) {
    match th.pc
    case ReserveJob =>
      (match J.Reserve(tab, limits, th.request.operation, th.request.fingerprint, [ch.job], ch.now).1
       case ExistingJob(_) => ch.pick >= 2
       case NewJob(id) => ch.pick == 1 || (ch.pick == 0 && id != "")
       case _ => ch.pick == 1)
    case AwaitPromote(first) => Claims(w, th, first) ==> ch.ok == J.Claim(tab, th.job).1
    case _ => true
  }

  predicate Agrees(w: World, tab: J.Table, limits: J.Limits, e: Event) {
    e.Act? && e.t in w.threads ==> TableSays(w, tab, limits, w.threads[e.t], e.ch)
  }

  /** Between two steps jobs may be looked up and cancelled by anybody. */
  predicate Asides(calls: seq<J.Call>) {
    forall k :: 0 <= k < |calls| ==> calls[k].CancelCall? || calls[k].LookupCall?
  }

  ghost predicate BackedStep(w: World, tab: J.Table, limits: J.Limits, asides: seq<J.Call>, e: Event, v: World,
                             after: J.Table) {
    var now := J.Run(tab, limits, asides);
    Asides(asides) && Steps(w, e, v) && Agrees(w, now, limits, e) && after == TableAfter(w, now, limits, e)
  }

  /** A run of the control plane and its job table together. */
  datatype Trace = Trace(limits: J.Limits, ws: seq<World>, es: seq<Event>, tabs: seq<J.Table>, asides: seq<seq<J.Call>>)

  ghost predicate BackedAt(r: Trace, k: nat)
    requires k < |r.es| && |r.ws| == |r.tabs| == |r.es| + 1 && |r.asides| == |r.es|
  {
    BackedStep(r.ws[k], r.tabs[k], r.limits, r.asides[k], r.es[k], r.ws[k + 1], r.tabs[k + 1])
  }

  ghost predicate Backed(r: Trace) {
    && |r.ws| == |r.tabs| == |r.es| + 1 && |r.asides| == |r.es|
    && Start(r.ws[0]) && r.tabs[0] == NO_JOBS
    && (forall k :: 0 <= k < |r.es| ==> BackedAt(r, k))
  }

  /** Everything proved of all runs holds of these. */
  lemma BackedIsRun(r: Trace)
    requires Backed(r)
    ensures Run(r.ws, r.es)
  {
    forall k | 0 <= k < |r.es| ensures StepAt(r.ws, r.es, k) {
      assert BackedAt(r, k);
    }
  }

  // -------------------------------------------------------- Over whole runs

  lemma StepKeepsTable(w: World, tab: J.Table, limits: J.Limits, asides: seq<J.Call>, e: Event, v: World,
                       after: J.Table)
    requires J.TableInv(tab, limits) && BackedStep(w, tab, limits, asides, e, v, after)
    ensures J.TableInv(after, limits)
  {
    J.RunKeepsInv(tab, limits, asides);
    if e.Act? && e.t in w.threads {
      J.RunKeepsInv(J.Run(tab, limits, asides), limits, Calls(w, w.threads[e.t], e.ch));
    }
  }

  /** In every such run the job table's index is right and its limit is kept. */
  lemma {:induction false} BackedTables(r: Trace, n: nat)
    requires Backed(r) && n <= |r.es|
    ensures J.TableInv(r.tabs[n], r.limits)
  {
    if n > 0 {
      BackedTables(r, n - 1);
      assert BackedAt(r, n - 1);
      StepKeepsTable(r.ws[n - 1], r.tabs[n - 1], r.limits, r.asides[n - 1], r.es[n - 1], r.ws[n], r.tabs[n]);
    }
  }

  // ------------------------------------------------- Where a job comes from

  /** Every job that carries an operation satisfies `origin`. */
  ghost predicate From(tab: J.Table, origin: string -> bool) {
    forall id :: id in tab.jobs && tab.jobs[id].operation != "" ==> origin(tab.jobs[id].operation)
  }

  predicate Reserves(call: J.Call) {
    call.ReserveCall? && call.operation != ""
  }

  lemma {:induction false} CallsKeepFrom(tab: J.Table, limits: J.Limits, calls: seq<J.Call>, origin: string -> bool)
    requires From(tab, origin)
    requires forall k :: 0 <= k < |calls| ==> Reserves(calls[k]) ==> origin(calls[k].operation)
    ensures From(J.Run(tab, limits, calls), origin)
  {
    if calls != [] {
      var most := calls[..|calls| - 1];
      assert forall k :: 0 <= k < |most| ==> most[k] == calls[k];
      CallsKeepFrom(tab, limits, most, origin);
      CallKeepsFrom(J.Run(tab, limits, most), limits, calls[|calls| - 1], origin);
    }
  }

  lemma CallKeepsFrom(tab: J.Table, limits: J.Limits, call: J.Call, origin: string -> bool)
    requires From(tab, origin) && (Reserves(call) ==> origin(call.operation))
    ensures From(J.Step(tab, limits, call), origin)
  {
  }

  /** At this step a request of the operation is given a new job. */
  predicate GivesJob(w: World, e: Event, operation: string) {
    && e.Act? && e.t in w.threads && w.threads[e.t].pc.ReserveJob? && e.ch.pick == 0
    && w.threads[e.t].request.operation == operation
  }

  lemma OnlyReservationsReserve(w: World, th: Thread, ch: Choice, k: nat)
    requires k < |Calls(w, th, ch)| && Reserves(Calls(w, th, ch)[k])
    ensures th.pc.ReserveJob? && ch.pick == 0 && Calls(w, th, ch)[k].operation == th.request.operation
  {
  }

  lemma StepKeepsFrom(w: World, tab: J.Table, limits: J.Limits, asides: seq<J.Call>, e: Event, v: World, after: J.Table,
                      origin: string -> bool)
    requires BackedStep(w, tab, limits, asides, e, v, after) && (e.Restart? || From(tab, origin))
    requires forall operation :: GivesJob(w, e, operation) ==> origin(operation)
    ensures From(after, origin)
  {
    if !e.Restart? {
      CallsKeepFrom(tab, limits, asides, origin);
      if e.Act? && e.t in w.threads {
        var calls := Calls(w, w.threads[e.t], e.ch);
        forall k | 0 <= k < |calls| && Reserves(calls[k]) ensures origin(calls[k].operation) {
          OnlyReservationsReserve(w, w.threads[e.t], e.ch, k);
          assert GivesJob(w, e, calls[k].operation);
        }
        CallsKeepFrom(J.Run(tab, limits, asides), limits, calls, origin);
      }
    }
  }

  ghost predicate GivenSince(r: Trace, n: nat, operation: string)
    requires n <= |r.es| < |r.ws|
  {
    exists k :: 0 <= k < n && GivesJob(r.ws[k], r.es[k], operation) && NoRestart(r.es, k, n)
  }

  lemma GivenStays(r: Trace, n: nat, operation: string)
    requires n < |r.es| < |r.ws| && !r.es[n].Restart?
    ensures GivenSince(r, n, operation) ==> GivenSince(r, n + 1, operation)
    ensures GivesJob(r.ws[n], r.es[n], operation) ==> GivenSince(r, n + 1, operation)
  {
    if GivenSince(r, n, operation) {
      var k :| 0 <= k < n && GivesJob(r.ws[k], r.es[k], operation) && NoRestart(r.es, k, n);
      assert NoRestart(r.es, k, n + 1);
    }
    if GivesJob(r.ws[n], r.es[n], operation) { assert NoRestart(r.es, n, n + 1); }
  }

  ghost function Origin(r: Trace, n: nat): string -> bool {
    operation => n <= |r.es| < |r.ws| && GivenSince(r, n, operation)
  }

  lemma JobsAreGivenStep(r: Trace, n: nat)
    requires |r.ws| == |r.tabs| == |r.es| + 1 && |r.asides| == |r.es| && n < |r.es| && BackedAt(r, n)
    requires From(r.tabs[n], Origin(r, n))
    ensures From(r.tabs[n + 1], Origin(r, n + 1))
  {
    if !r.es[n].Restart? {
      forall operation
        ensures GivesJob(r.ws[n], r.es[n], operation) || GivenSince(r, n, operation) ==> Origin(r, n + 1)(operation)
      {
        GivenStays(r, n, operation);
      }
    }
    StepKeepsFrom(r.ws[n], r.tabs[n], r.limits, r.asides[n], r.es[n], r.ws[n + 1], r.tabs[n + 1], Origin(r, n + 1));
  }

  /** Whatever job is in the table was given, since the last restart, to a
      request of its operation. */
  lemma {:induction false} JobsAreGiven(r: Trace, n: nat)
    requires Backed(r) && n <= |r.es|
    ensures From(r.tabs[n], Origin(r, n))
  {
    if n > 0 {
      JobsAreGiven(r, n - 1);
      assert BackedAt(r, n - 1);
      JobsAreGivenStep(r, n - 1);
    }
  }

  // ------------------------------------------- Who is answered with an old job

  /** At this step a request is answered with a job that was there before it. */
  predicate MeetsOlderJob(w: World, e: Event, t: nat) {
    e.Act? && e.t == t && t in w.threads && w.threads[t].pc.ReserveJob? && e.ch.pick >= 2
  }

  /** The request has taken its job, or is gone: it never asks for one again. */
  predicate PastTheTable(w: World, t: nat) {
    t < w.next && (t in w.threads ==> !Admitting(w.threads[t].pc))
  }

  /** A step that leaves its thread beyond the admission, if it leaves one. */
  predicate MovesOn(s: Step) {
    && (s.Stay? || s.Coordinate? || s.Write? || s.Replace? ==> !Admitting(s.thread.pc))
    && (s.Wait? ==> !Admitting(s.pc))
  }

  lemma PromotionMovesOn(w: World, th: Thread, first: bool, claimed: bool)
    ensures MovesOn(PromoteTurn(w, th, first, claimed))
  {
  }

  lemma ServiceMovesOn(w: World, t: nat, th: Thread, ch: Choice)
    requires Serving(th.pc) && !th.pc.AwaitPromote?
    ensures MovesOn(Service(w, t, th, ch))
  {
  }

  lemma ResumeMovesOn(th: Thread, goal: S.Goal, after: After, ok: bool)
    ensures !Admitting(Resume(th, goal, after, ok).pc)
  {
  }

  lemma TransitionMovesOn(w: World, th: Thread, goal: S.Goal, after: After, ch: Choice)
    ensures MovesOn(Transition(w, th, goal, after, ch))
  {
    ResumeMovesOn(th, goal, after, true);
  }

  lemma ExitMovesOn(w: World, t: nat, th: Thread, ch: Choice)
    requires Exiting(th.pc) && !th.pc.Transitioning?
    ensures MovesOn(Exit(w, t, th, ch))
  {
    if th.pc.Confirming? {
      ResumeMovesOn(th, th.pc.goal, th.pc.after, S.Shows(w.st.operations, th.request.operation, th.pc.goal));
    }
  }

  lemma ErrandMovesOn(w: World, t: nat, th: Thread, ch: Choice)
    requires !Admitting(th.pc) && !Serving(th.pc) && !Exiting(th.pc)
    ensures MovesOn(Errand(w, t, th, ch))
  {
    match th.pc
    case AwaitBegin => BeginMovesOn(w, t, th);
    case AwaitRecovery => BeginRecoveryMovesOn(w, t, th);
    case _ =>
  }

  lemma BeginMovesOn(w: World, t: nat, th: Thread)
    ensures MovesOn(BeginTurn(w, t, th))
  {
  }

  lemma BeginRecoveryMovesOn(w: World, t: nat, th: Thread)
    ensures MovesOn(BeginRecoveryTurn(w, t, th))
  {
  }

  lemma NextMovesOn(w: World, t: nat, th: Thread, ch: Choice)
    requires t in w.threads && th == w.threads[t] && !Admitting(th.pc)
    ensures MovesOn(Next(w, t, ch))
  {
    if th.pc.AwaitPromote? { PromotionMovesOn(w, th, th.pc.first, ch.ok); }
    else if Serving(th.pc) { ServiceMovesOn(w, t, th, ch); }
    else if th.pc.Transitioning? { TransitionMovesOn(w, th, th.pc.goal, th.pc.after, ch); }
    else if Exiting(th.pc) { ExitMovesOn(w, t, th, ch); }
    else { ErrandMovesOn(w, t, th, ch); }
  }

  lemma PerformMovesOn(w: World, t: nat, step: Step, u: nat)
    requires t in w.threads && w.author.Keys >= w.st.operations.Keys && PastTheTable(w, u)
    requires t == u ==> MovesOn(step)
    ensures PastTheTable(Perform(w, t, step), u)
  {
  }

  lemma ActMovesOn(w: World, t: nat, ch: Choice, u: nat)
    requires t in w.threads && w.author.Keys >= w.st.operations.Keys && PastTheTable(w, u)
    ensures PastTheTable(Perform(w, t, Next(w, t, ch)), u)
  {
    if t == u { NextMovesOn(w, t, w.threads[t], ch); }
    PerformMovesOn(w, t, Next(w, t, ch), u);
  }

  lemma StepMovesOn(w: World, v: World, e: Event, u: nat)
    requires Steps(w, e, v) && PastTheTable(w, u)
    ensures PastTheTable(v, u)
  {
    if e.Act? { ActMovesOn(w, e.t, e.ch, u); }
  }

  lemma {:induction false} StaysPastTheTable(ws: seq<World>, es: seq<Event>, i: nat, j: nat, u: nat)
    requires Run(ws, es) && i <= j <= |es| && PastTheTable(ws[i], u)
    ensures PastTheTable(ws[j], u)
    decreases j
  {
    if i < j {
      StaysPastTheTable(ws, es, i, j - 1, u);
      assert StepAt(ws, es, j - 1);
      StepMovesOn(ws[j - 1], ws[j], es[j - 1], u);
    }
  }

  lemma TakersArePast(w: World, v: World, e: Event, operation: string)
    requires Inv(w) && Steps(w, e, v) && GivesJob(w, e, operation)
    ensures PastTheTable(v, e.t)
  {
    assert ThreadOk(w, e.t);
    TakingMovesOn(w, e.t, w.threads[e.t], e.ch);
  }

  lemma TakingMovesOn(w: World, t: nat, th: Thread, ch: Choice)
    requires t in w.threads && th == w.threads[t] && th.pc.ReserveJob? && w.author.Keys >= w.st.operations.Keys
    requires t < w.next
    requires ch.pick == 0
    ensures PastTheTable(Perform(w, t, Next(w, t, ch)), t)
  {
  }

  /** An earlier request of the same operation, another one, was given a job
      since the last restart. */
  ghost predicate GivenToAnother(r: Trace, n: nat, t: nat, operation: string)
    requires n <= |r.es| < |r.ws|
  {
    exists k :: 0 <= k < n && GivesJob(r.ws[k], r.es[k], operation) && r.es[k].t != t && NoRestart(r.es, k, n)
  }

  lemma TheTableHadOne(w: World, tab: J.Table, limits: J.Limits, asides: seq<J.Call>, e: Event, v: World,
                       after: J.Table,
                       t: nat, origin: string -> bool)
    requires BackedStep(w, tab, limits, asides, e, v, after) && MeetsOlderJob(w, e, t)
    requires J.TableInv(tab, limits) && From(tab, origin)
    ensures origin(w.threads[t].request.operation)
  {
    var now := J.Run(tab, limits, asides);
    CallsKeepFrom(tab, limits, asides, origin);
    J.RunKeepsInv(tab, limits, asides);
    ExistingJobIsIndexed(now, limits, w.threads[t].request.operation, w.threads[t].request.fingerprint, [e.ch.job],
                         e.ch.now);
  }

  lemma ExistingJobIsIndexed(tab: J.Table, limits: J.Limits, operation: string, fingerprint: string,
                             candidates: seq<string>, now: nat)
    requires J.TableInv(tab, limits) && J.Reserve(tab, limits, operation, fingerprint, candidates, now).1.ExistingJob?
    ensures operation != "" && exists id :: id in tab.jobs && tab.jobs[id].operation == operation
  {
    assert tab.index[operation] in tab.jobs;
  }

  /** A request is only ever answered with an older job if another request of
      its operation was given one since the process started. */
  lemma OlderJobsAreAnothers(r: Trace, n: nat, t: nat)
    requires Backed(r) && n < |r.es| && MeetsOlderJob(r.ws[n], r.es[n], t)
    ensures GivenToAnother(r, n, t, r.ws[n].threads[t].request.operation)
  {
    var operation := r.ws[n].threads[t].request.operation;
    BackedTables(r, n);
    JobsAreGiven(r, n);
    assert BackedAt(r, n);
    TheTableHadOne(r.ws[n], r.tabs[n], r.limits, r.asides[n], r.es[n], r.ws[n + 1], r.tabs[n + 1], t, Origin(r, n));
    var k :| 0 <= k < n && GivesJob(r.ws[k], r.es[k], operation) && NoRestart(r.es, k, n);
    BackedIsRun(r);
    if r.es[k].t == t { TakesOnlyOnce(r.ws, r.es, k, n, t, operation); }
  }

  lemma TakerIsPast(ws: seq<World>, es: seq<Event>, k: nat, operation: string)
    requires Run(ws, es) && k < |es| && GivesJob(ws[k], es[k], operation)
    ensures PastTheTable(ws[k + 1], es[k].t)
  {
    ReachableIsSafe(ws, es, k);
    assert StepAt(ws, es, k);
    TakersArePast(ws[k], ws[k + 1], es[k], operation);
  }

  lemma TakesOnlyOnce(ws: seq<World>, es: seq<Event>, k: nat, n: nat, t: nat, operation: string)
    requires Run(ws, es) && k < n < |es| && GivesJob(ws[k], es[k], operation) && es[k].t == t
    ensures !(t in ws[n].threads && ws[n].threads[t].pc.ReserveJob?)
  {
    TakerIsPast(ws, es, k, operation);
    StaysPastTheTable(ws, es, k + 1, n, t);
  }

  // ------------------------------------- The exception, traced to its cause

  /** The list of those answered with an older job grows by nobody else. */
  lemma OnlyOlderJobsLeak(w: World, v: World, e: Event, t: nat)
    requires Inv(w) && Steps(w, e, v) && t !in w.leaked && t in v.leaked
    ensures MeetsOlderJob(w, e, t)
  {
    if e.Act? {
      assert ThreadOk(w, e.t);
      LeakingStep(w, e.t, w.threads[e.t], e.ch, t);
    }
  }

  /** Only an answer that is not an error leads to the list. */
  predicate Innocent(s: Step) {
    !(s.Stay? && s.thread.pc.Settling? && s.thread.http < 400)
  }

  lemma AdmissionIsInnocent(w: World, th: Thread, ch: Choice)
    requires Admitting(th.pc) && ch.http >= 400 && !(th.pc.ReserveJob? && ch.pick >= 2)
    ensures Innocent(Admission(w, th, ch))
  {
  }

  lemma ServiceIsInnocent(w: World, t: nat, th: Thread, ch: Choice)
    requires Serving(th.pc) && ch.http >= 400
    ensures Innocent(Service(w, t, th, ch))
  {
  }

  lemma TransitionIsInnocent(w: World, th: Thread, goal: S.Goal, after: After, ch: Choice)
    requires after.AfterCancel? ==> th.http >= 400
    ensures Innocent(Transition(w, th, goal, after, ch))
  {
  }

  lemma ExitIsInnocent(w: World, t: nat, th: Thread, ch: Choice)
    requires Exiting(th.pc) && !th.pc.Transitioning? && Shape(th)
    ensures Innocent(Exit(w, t, th, ch))
  {
  }

  lemma ErrandIsInnocent(w: World, t: nat, th: Thread, ch: Choice)
    requires !Admitting(th.pc) && !Serving(th.pc) && !Exiting(th.pc)
    ensures Innocent(Errand(w, t, th, ch))
  {
  }

  lemma NextIsInnocent(w: World, t: nat, th: Thread, ch: Choice)
    requires t in w.threads && th == w.threads[t] && Shape(th) && ch.http >= 400 && !(th.pc.ReserveJob? && ch.pick >= 2)
    ensures Innocent(Next(w, t, ch))
  {
    if Admitting(th.pc) { AdmissionIsInnocent(w, th, ch); }
    else if Serving(th.pc) { ServiceIsInnocent(w, t, th, ch); }
    else if th.pc.Transitioning? { TransitionIsInnocent(w, th, th.pc.goal, th.pc.after, ch); }
    else if Exiting(th.pc) { ExitIsInnocent(w, t, th, ch); }
    else { ErrandIsInnocent(w, t, th, ch); }
  }

  lemma LeakingStep(w: World, u: nat, th: Thread, ch: Choice, t: nat)
    requires u in w.threads && th == w.threads[u] && Shape(th) && ch.http >= 400
    requires w.author.Keys >= w.st.operations.Keys
    requires t !in w.leaked && t in Perform(w, u, Next(w, u, ch)).leaked
    ensures t == u && th.pc.ReserveJob? && ch.pick >= 2
  {
    InnocentLeaksNothing(w, u, Next(w, u, ch), t);
    if !(th.pc.ReserveJob? && ch.pick >= 2) { NextIsInnocent(w, u, th, ch); }
  }

  lemma InnocentLeaksNothing(w: World, u: nat, step: Step, t: nat)
    requires u in w.threads && w.author.Keys >= w.st.operations.Keys && t !in w.leaked
    ensures t in Perform(w, u, step).leaked ==> t == u && !Innocent(step)
  {
  }

  lemma LeakAt(ws: seq<World>, es: seq<Event>, n: nat, t: nat)
    requires Run(ws, es) && n < |es| && t !in ws[n].leaked && t in ws[n + 1].leaked
    ensures MeetsOlderJob(ws[n], es[n], t)
  {
    ReachableIsSafe(ws, es, n);
    assert StepAt(ws, es, n);
    OnlyOlderJobsLeak(ws[n], ws[n + 1], es[n], t);
  }

  lemma {:induction false} LeakedMetOne(ws: seq<World>, es: seq<Event>, n: nat, t: nat) returns (m: nat)
    requires Run(ws, es) && n <= |es| && t in ws[n].leaked
    ensures m < n && MeetsOlderJob(ws[m], es[m], t)
  {
    if t in ws[n - 1].leaked {
      m := LeakedMetOne(ws, es, n - 1, t);
    } else {
      m := n - 1;
      LeakAt(ws, es, n - 1, t);
    }
  }

  // A request past the table writes no new record, so its record is the one it
  // reserved.

  /** A step that puts no record into the store. */
  predicate InsertsNothing(w: World, s: Step) {
    s.Write? || s.WriteLast? ==> s.st.operations.Keys <= w.st.operations.Keys
  }

  lemma TransitionInsertsNothing(w: World, th: Thread, goal: S.Goal, after: After, ch: Choice)
    ensures InsertsNothing(w, Transition(w, th, goal, after, ch))
  {
  }

  lemma OthersWriteNothing(w: World, t: nat, th: Thread, ch: Choice)
    requires t in w.threads && th == w.threads[t] && !Admitting(th.pc) && !th.pc.Transitioning?
    ensures !Next(w, t, ch).Write? && !Next(w, t, ch).WriteLast?
  {
  }

  lemma NextInsertsNothing(w: World, t: nat, th: Thread, ch: Choice)
    requires t in w.threads && th == w.threads[t] && !Admitting(th.pc)
    ensures InsertsNothing(w, Next(w, t, ch))
  {
    if th.pc.Transitioning? { TransitionInsertsNothing(w, th, th.pc.goal, th.pc.after, ch); }
    else { OthersWriteNothing(w, t, th, ch); }
  }

  lemma PerformAuthors(w: World, u: nat, step: Step, t: nat, id: string)
    requires u in w.threads && w.author.Keys == w.st.operations.Keys && (u == t ==> InsertsNothing(w, step))
    requires AuthoredBy(Perform(w, u, step), id, t)
    ensures AuthoredBy(w, id, t)
  {
  }

  lemma AuthorsGoBack(w: World, v: World, e: Event, id: string, t: nat)
    requires Inv(w) && Steps(w, e, v) && PastTheTable(w, t) && AuthoredBy(v, id, t)
    ensures AuthoredBy(w, id, t)
  {
    if e.Act? {
      if e.t == t { NextInsertsNothing(w, t, w.threads[t], e.ch); }
      PerformAuthors(w, e.t, Next(w, e.t, e.ch), t, id);
    }
  }

  lemma AuthorsGoBackAt(ws: seq<World>, es: seq<Event>, n: nat, id: string, t: nat)
    requires Run(ws, es) && n < |es| && PastTheTable(ws[n], t) && AuthoredBy(ws[n + 1], id, t)
    ensures AuthoredBy(ws[n], id, t)
  {
    ReachableIsSafe(ws, es, n);
    assert StepAt(ws, es, n);
    AuthorsGoBack(ws[n], ws[n + 1], es[n], id, t);
  }

  lemma {:induction false} AuthorsGoBackOverRuns(ws: seq<World>, es: seq<Event>, i: nat, j: nat, id: string, t: nat)
    requires Run(ws, es) && i <= j <= |es| && PastTheTable(ws[i], t) && AuthoredBy(ws[j], id, t)
    ensures AuthoredBy(ws[i], id, t)
    decreases j
  {
    if i < j {
      StaysPastTheTable(ws, es, i, j - 1, t);
      AuthorsGoBackAt(ws, es, j - 1, id, t);
      AuthorsGoBackOverRuns(ws, es, i, j - 1, id, t);
    }
  }

  lemma MeetersArePast(w: World, v: World, e: Event, t: nat, id: string)
    requires Inv(w) && Steps(w, e, v) && MeetsOlderJob(w, e, t)
    ensures PastTheTable(v, t)
    ensures AuthoredBy(v, id, t) ==> id == w.threads[t].request.operation
  {
    assert ThreadOk(w, t);
    MeetingMovesOn(w, t, w.threads[t], e.ch);
  }

  lemma MeetingMovesOn(w: World, t: nat, th: Thread, ch: Choice)
    requires t in w.threads && th == w.threads[t] && th.pc.ReserveJob? && w.author.Keys >= w.st.operations.Keys
    requires t < w.next
    requires ch.pick >= 2
    ensures var v := Perform(w, t, Next(w, t, ch)); PastTheTable(v, t) && v.author == w.author
  {
  }

  lemma MeeterIsPast(ws: seq<World>, es: seq<Event>, m: nat, t: nat, id: string)
    requires Run(ws, es) && m < |es| && MeetsOlderJob(ws[m], es[m], t)
    ensures PastTheTable(ws[m + 1], t) && (AuthoredBy(ws[m + 1], id, t) ==> id == ws[m].threads[t].request.operation)
  {
    ReachableIsSafe(ws, es, m);
    assert StepAt(ws, es, m);
    MeetersArePast(ws[m], ws[m + 1], es[m], t, id);
  }

  lemma MeetersRecord(ws: seq<World>, es: seq<Event>, m: nat, n: nat, t: nat, id: string)
    requires Run(ws, es) && m < n <= |es| && MeetsOlderJob(ws[m], es[m], t) && AuthoredBy(ws[n], id, t)
    ensures ws[m].threads[t].request.operation == id
  {
    MeeterIsPast(ws, es, m, t, id);
    AuthorsGoBackOverRuns(ws, es, m + 1, n, id, t);
  }

  /** The request that reserved the record was answered, at a step before, with
      a job that another request of the same operation had been given. */
  ghost predicate Overlooked(r: Trace, n: nat, id: string, t: nat)
    requires n <= |r.es| < |r.ws|
  {
    exists m :: 0 <= m < n && MeetsOlderJob(r.ws[m], r.es[m], t) && r.ws[m].threads[t].request.operation == id
                && GivenToAnother(r, m, t, id)
  }

  lemma LeakedIsOverlooked(r: Trace, n: nat, id: string, t: nat)
    requires Backed(r) && n <= |r.es| && t in r.ws[n].leaked && AuthoredBy(r.ws[n], id, t)
    ensures Overlooked(r, n, id, t)
  {
    BackedIsRun(r);
    var m := LeakedMetOne(r.ws, r.es, n, t);
    MeetersRecord(r.ws, r.es, m, n, t, id);
    OlderJobsAreAnothers(r, m, t);
  }

  /** Nothing is forgotten, with the exception for older jobs traced to its
      cause: an earlier request of the operation that was given a job, and was
      given it by this process. */
  lemma NothingIsForgottenWithJobs(r: Trace, n: nat, id: string)
    requires Backed(r) && n <= |r.es|
    requires var v := r.ws[n]; v.up && id in v.st.operations && !IsTerminal(v.st.operations[id].status)
    ensures var v := r.ws[n];
      && id in v.author
      && (|| v.author[id] in v.threads
          || (v.st.operations[id].status.RecoveryRequired? && v.journal.Some? && v.journal.value.operation == id)
          || (v.st.operations[id].status.RecoveryRequired? && v.author[id] in v.raced)
          || (v.c.settlementPending && v.c.closed)
          || Overlooked(r, n, id, v.author[id]))
  {
    BackedIsRun(r);
    NothingIsForgotten(r.ws, r.es, n, id);
    if r.ws[n].author[id] in r.ws[n].leaked { LeakedIsOverlooked(r, n, id, r.ws[n].author[id]); }
  }

  // -------------------------------------------- A job left for a recovery

  /** A job that its worker left for a recovery, and that nobody works under. */
  ghost predicate LeftBehind(w: World, tab: J.Table, id: string, operation: string, fingerprint: string) {
    && J.LeftForRecovery(tab, id, operation, fingerprint) && id != ""
    && (forall t :: t in w.threads ==> w.threads[t].job != id)
  }

  /** A step gives its thread no job but a newly drawn one. */
  predicate KeepsJob(th: Thread, ch: Choice, s: Step) {
    s.Stay? || s.Coordinate? || s.Write? || s.Replace? ==>
      s.thread.job == th.job || (th.pc.ReserveJob? && ch.pick == 0 && s.thread.job == ch.job)
  }

  lemma AdmissionKeepsJob(w: World, th: Thread, ch: Choice)
    requires Admitting(th.pc)
    ensures KeepsJob(th, ch, Admission(w, th, ch))
  {
  }

  lemma ServiceKeepsJob(w: World, t: nat, th: Thread, ch: Choice)
    requires Serving(th.pc)
    ensures KeepsJob(th, ch, Service(w, t, th, ch))
  {
  }

  lemma TransitionKeepsJob(w: World, th: Thread, goal: S.Goal, after: After, ch: Choice)
    ensures KeepsJob(th, ch, Transition(w, th, goal, after, ch))
  {
  }

  lemma ExitKeepsJob(w: World, t: nat, th: Thread, ch: Choice)
    requires Exiting(th.pc) && !th.pc.Transitioning?
    ensures KeepsJob(th, ch, Exit(w, t, th, ch))
  {
  }

  lemma ErrandKeepsJob(w: World, t: nat, th: Thread, ch: Choice)
    requires !Admitting(th.pc) && !Serving(th.pc) && !Exiting(th.pc)
    ensures KeepsJob(th, ch, Errand(w, t, th, ch))
  {
  }

  lemma NextKeepsJob(w: World, t: nat, th: Thread, ch: Choice)
    requires t in w.threads && th == w.threads[t]
    ensures KeepsJob(th, ch, Next(w, t, ch))
  {
    if Admitting(th.pc) { AdmissionKeepsJob(w, th, ch); }
    else if Serving(th.pc) { ServiceKeepsJob(w, t, th, ch); }
    else if th.pc.Transitioning? { TransitionKeepsJob(w, th, th.pc.goal, th.pc.after, ch); }
    else if Exiting(th.pc) { ExitKeepsJob(w, t, th, ch); }
    else { ErrandKeepsJob(w, t, th, ch); }
  }

  /** Nobody works under the job. */
  predicate NobodyHas(w: World, id: string) {
    forall t :: t in w.threads ==> w.threads[t].job != id
  }

  lemma PerformSparesJob(w: World, t: nat, step: Step, ch: Choice, id: string)
    requires t in w.threads && w.author.Keys >= w.st.operations.Keys && NobodyHas(w, id)
    requires KeepsJob(w.threads[t], ch, step) && (w.threads[t].pc.ReserveJob? && ch.pick == 0 ==> ch.job != id)
    ensures NobodyHas(Perform(w, t, step), id)
  {
  }

  lemma StepSparesJob(w: World, v: World, e: Event, id: string)
    requires Steps(w, e, v) && NobodyHas(w, id) && id != ""
    requires e.Act? && w.threads[e.t].pc.ReserveJob? && e.ch.pick == 0 ==> e.ch.job != id
    ensures NobodyHas(v, id)
  {
    if e.Act? {
      NextKeepsJob(w, e.t, w.threads[e.t], e.ch);
      PerformSparesJob(w, e.t, Next(w, e.t, e.ch), e.ch, id);
    }
  }

  lemma NewIdsAreNew(tab: J.Table, limits: J.Limits, operation: string, fingerprint: string, job: string, now: nat,
                     id: string)
    requires J.Reserve(tab, limits, operation, fingerprint, [job], now).1.NewJob?
    requires id in tab.jobs && !J.Expired(tab.jobs[id], now, limits.retention)
    ensures job != id
  {
    J.FreshIsFree(J.Prune(tab, now, limits.retention).jobs, [job]);
  }

  lemma CallsSpareJob(w: World, th: Thread, ch: Choice, id: string)
    requires th.job != id
    ensures J.NotFinishedAgain(Calls(w, th, ch), id)
  {
  }

  lemma AsidesFinishNothing(calls: seq<J.Call>, id: string)
    requires Asides(calls)
    ensures J.NotFinishedAgain(calls, id)
  {
  }

  /** That is how a worker leaves its job when its record needs recovery. */
  lemma WorkerLeavesJobBehind(w: World, tab: J.Table, limits: J.Limits, asides: seq<J.Call>, e: Event, v: World,
                              after: J.Table, t: nat)
    requires J.TableInv(tab, limits) && BackedStep(w, tab, limits, asides, e, v, after) && e.Act? && e.t == t
    requires var th := w.threads[t]; th.pc.Releasing? && th.role.Requester? && th.request.operation in w.st.operations
    requires var th := w.threads[t];
      && w.st.operations[th.request.operation].status.RecoveryRequired? && !w.c.settlementPending
      && th.request.operation != "" && th.job != ""
      && (forall u :: u in w.threads && u != t ==> w.threads[u].job != th.job)
    requires var th := w.threads[t]; var jobs := J.Run(tab, limits, asides).jobs;
      && th.job in jobs && !IsTerminal(jobs[th.job].status)
      && jobs[th.job].operation == th.request.operation && jobs[th.job].fingerprint == th.request.fingerprint
    ensures var th := w.threads[t]; LeftBehind(v, after, th.job, th.request.operation, th.request.fingerprint)
  {
    var th := w.threads[t];
    J.RunKeepsInv(tab, limits, asides);
    assert Calls(w, th, e.ch) == [J.FinishCall(th.job, RecoveryRequired, NoMessage, e.ch.now)];
    FinishingLeaves(J.Run(tab, limits, asides), limits, th.job, e.ch.now);
    ReleasingLeaves(w, t, th, e.ch);
  }

  lemma FinishingLeaves(tab: J.Table, limits: J.Limits, id: string, now: nat)
    requires J.TableInv(tab, limits) && id in tab.jobs && !IsTerminal(tab.jobs[id].status)
    requires tab.jobs[id].operation != ""
    ensures J.LeftForRecovery(J.Run(tab, limits, [J.FinishCall(id, RecoveryRequired, NoMessage, now)]), id,
                              tab.jobs[id].operation, tab.jobs[id].fingerprint)
  {
    var call := J.FinishCall(id, RecoveryRequired, NoMessage, now);
    assert J.Indexed(tab, id);
    assert [call][..0] == [];
    assert J.Run(tab, limits, [call]) == J.Step(tab, limits, call);
  }

  lemma ReleasingLeaves(w: World, t: nat, th: Thread, ch: Choice)
    requires t in w.threads && th == w.threads[t] && th.pc.Releasing? && w.author.Keys >= w.st.operations.Keys
    ensures Perform(w, t, Next(w, t, ch)).threads == w.threads - {t}
  {
  }

  /** Until the process restarts such a job stays, whatever happens. */
  lemma StepKeepsLeftBehind(w: World, tab: J.Table, limits: J.Limits, asides: seq<J.Call>, e: Event, v: World,
                            after: J.Table,
                            id: string, operation: string, fingerprint: string)
    requires J.TableInv(tab, limits) && BackedStep(w, tab, limits, asides, e, v, after) && !e.Restart?
    requires LeftBehind(w, tab, id, operation, fingerprint)
    ensures LeftBehind(v, after, id, operation, fingerprint)
  {
    var now := J.Run(tab, limits, asides);
    AsidesFinishNothing(asides, id);
    J.RunKeepsInv(tab, limits, asides);
    J.RunKeepsLeft(tab, limits, asides, id, operation, fingerprint);
    if e.Act? {
      var th := w.threads[e.t];
      CallsSpareJob(w, th, e.ch, id);
      J.RunKeepsLeft(now, limits, Calls(w, th, e.ch), id, operation, fingerprint);
      if th.pc.ReserveJob? && e.ch.pick == 0 {
        NewIdsAreNew(now, limits, th.request.operation, th.request.fingerprint, e.ch.job, e.ch.now, id);
      }
    }
    StepSparesJob(w, v, e, id);
  }

  lemma {:induction false} LeftBehindLasts(r: Trace, i: nat, j: nat, id: string, operation: string, fingerprint: string)
    requires Backed(r) && i <= j <= |r.es| && NoRestart(r.es, i, j)
    requires LeftBehind(r.ws[i], r.tabs[i], id, operation, fingerprint)
    ensures LeftBehind(r.ws[j], r.tabs[j], id, operation, fingerprint)
    decreases j
  {
    if i < j {
      LeftBehindLasts(r, i, j - 1, id, operation, fingerprint);
      LeftBehindStays(r, j - 1, id, operation, fingerprint);
    }
  }

  lemma LeftBehindStays(r: Trace, n: nat, id: string, operation: string, fingerprint: string)
    requires Backed(r) && n < |r.es| && !r.es[n].Restart?
    requires LeftBehind(r.ws[n], r.tabs[n], id, operation, fingerprint)
    ensures LeftBehind(r.ws[n + 1], r.tabs[n + 1], id, operation, fingerprint)
  {
    BackedTables(r, n);
    assert BackedAt(r, n);
    StepKeepsLeftBehind(r.ws[n], r.tabs[n], r.limits, r.asides[n], r.es[n], r.ws[n + 1], r.tabs[n + 1], id, operation,
                        fingerprint);
  }

  lemma LeftJobAnswers(w: World, tab: J.Table, limits: J.Limits, asides: seq<J.Call>, e: Event, v: World,
                       after: J.Table,
                       id: string, operation: string)
    requires J.TableInv(tab, limits) && BackedStep(w, tab, limits, asides, e, v, after)
    requires e.Act? && w.threads[e.t].pc.ReserveJob? && w.threads[e.t].request.operation == operation
    requires J.LeftForRecovery(tab, id, operation, w.threads[e.t].request.fingerprint) && operation != ""
    ensures MeetsOlderJob(w, e, e.t)
  {
    AsidesFinishNothing(asides, id);
    J.RunKeepsInv(tab, limits, asides);
    J.RunKeepsLeft(tab, limits, asides, id, operation, w.threads[e.t].request.fingerprint);
  }

  /** So once an operation's job has been left for a recovery, every later
      request of it that gets as far as reserving a record, until the process
      restarts, is answered with that job. */
  lemma LeftJobIsMet(r: Trace, i: nat, j: nat, t: nat, id: string)
    requires Backed(r) && i <= j < |r.es| && NoRestart(r.es, i, j) && r.es[j].Act? && r.es[j].t == t
    requires t in r.ws[j].threads
    requires r.ws[j].threads[t].pc.ReserveJob? && r.ws[j].threads[t].request.operation != ""
    requires var p := r.ws[j].threads[t].request; LeftBehind(r.ws[i], r.tabs[i], id, p.operation, p.fingerprint)
    ensures MeetsOlderJob(r.ws[j], r.es[j], t)
  {
    var p := r.ws[j].threads[t].request;
    BackedTables(r, j);
    LeftBehindLasts(r, i, j, id, p.operation, p.fingerprint);
    assert BackedAt(r, j);
    LeftJobAnswers(r.ws[j], r.tabs[j], r.limits, r.asides[j], r.es[j], r.ws[j + 1], r.tabs[j + 1], id, p.operation);
  }

  /** A request that is still being admitted has no doubtful settlement yet. */
  predicate Confident(w: World) {
    forall t :: t in w.threads && Admitting(w.threads[t].pc) ==> w.threads[t].confirmed
  }

  predicate LandsConfident(s: Step) {
    s.Stay? || s.Coordinate? || s.Write? || s.Replace? ==> Admitting(s.thread.pc) ==> s.thread.confirmed
  }

  lemma AdmissionLandsConfident(w: World, th: Thread, ch: Choice)
    requires Admitting(th.pc) && th.confirmed
    ensures LandsConfident(Admission(w, th, ch))
  {
  }

  lemma PerformStaysConfident(w: World, t: nat, step: Step)
    requires t in w.threads && w.author.Keys >= w.st.operations.Keys && Confident(w) && LandsConfident(step)
    requires step.Wait? && Admitting(step.pc) ==> Admitting(w.threads[t].pc)
    ensures Confident(Perform(w, t, step))
  {
  }

  lemma ActStaysConfident(w: World, t: nat, ch: Choice)
    requires t in w.threads && w.author.Keys >= w.st.operations.Keys && Confident(w)
    ensures Confident(Perform(w, t, Next(w, t, ch)))
  {
    var th := w.threads[t];
    if Admitting(th.pc) { AdmissionLandsConfident(w, th, ch); } else { NextMovesOn(w, t, th, ch); }
    PerformStaysConfident(w, t, Next(w, t, ch));
  }

  lemma StepStaysConfident(w: World, v: World, e: Event)
    requires Steps(w, e, v) && Confident(w)
    ensures Confident(v)
  {
    if e.Act? { ActStaysConfident(w, e.t, e.ch); }
  }

  lemma {:induction false} RunIsConfident(ws: seq<World>, es: seq<Event>, n: nat)
    requires Run(ws, es) && n <= |es|
    ensures Confident(ws[n])
  {
    if n > 0 {
      RunIsConfident(ws, es, n - 1);
      assert StepAt(ws, es, n - 1);
      StepStaysConfident(ws[n - 1], ws[n], es[n - 1]);
    }
  }

  lemma MeetingLeavesItPending(w: World, v: World, e: Event, t: nat, ch: Choice)
    requires Inv(w) && Confident(w) && Steps(w, e, v) && MeetsOlderJob(w, e, t) && w.threads[t].request.operation != ""
    ensures var z := Onwards(v, t, ch, 3); var id := w.threads[t].request.operation;
      && t !in z.threads && z.st == w.st && id in z.st.operations && z.st.operations[id].status.Pending?
      && z.c.settlementPending == w.c.settlementPending
  {
    var th := w.threads[t];
    assert ThreadOk(w, t);
    OlderJobAnswers(w, t, th, e.ch);
    RepliedRequestLeaves(v, t, th.(pc := Settling, http := 200), ch);
  }

  /** And three steps later, with nobody else in between, it is gone: the record
      it had just reserved is still pending, and no flag has been raised. */
  lemma LeftJobLeavesItPending(r: Trace, i: nat, j: nat, t: nat, id: string, ch: Choice)
    requires Backed(r) && i <= j < |r.es| && NoRestart(r.es, i, j) && r.es[j].Act? && r.es[j].t == t
    requires t in r.ws[j].threads
    requires r.ws[j].threads[t].pc.ReserveJob? && r.ws[j].threads[t].request.operation != ""
    requires var p := r.ws[j].threads[t].request; LeftBehind(r.ws[i], r.tabs[i], id, p.operation, p.fingerprint)
    ensures var z := Onwards(r.ws[j + 1], t, ch, 3); var operation := r.ws[j].threads[t].request.operation;
      && t !in z.threads && z.st == r.ws[j].st && operation in z.st.operations
      && z.st.operations[operation].status.Pending?
      && z.c.settlementPending == r.ws[j].c.settlementPending
  {
    LeftJobIsMet(r, i, j, t, id);
    BackedIsRun(r);
    ReachableIsSafe(r.ws, r.es, j);
    RunIsConfident(r.ws, r.es, j);
    assert StepAt(r.ws, r.es, j);
    MeetingLeavesItPending(r.ws[j], r.ws[j + 1], r.es[j], t, ch);
  }
}
