/** What a step of one thread leaves alone is enough for every other thread. */
module ControlPlaneFrames {
  import opened Lifecycle
  import opened ControlPlane
  import opened ControlPlaneInvariant
  import C = Coordination
  import S = OperationStore

  ghost predicate ByThread(p: Option<C.Preparation>, t: nat) {
    p.Some? ==> p.value.id == t
  }

  ghost predicate MayMove(w: World, t: nat, id: string) {
    && id in w.author
    && (|| w.author[id] == t
        || (t in w.threads && w.threads[t].role.Repairer? && w.threads[t].leased && w.journal.Some?
            && w.journal.value.operation == id))
  }

  ghost predicate MayInsert(w: World, t: nat, id: string) {
    t in w.threads && w.c.preparing == Some(w.threads[t].request) && w.threads[t].request.operation == id
    && w.threads[t].role.Requester?
  }

  ghost predicate RecordStep(w: World, v: World, t: nat, id: string) {
    && (id in v.st.operations ==> id in v.author)
    && (id in v.st.operations && id in w.st.operations ==> id in w.author && v.author[id] == w.author[id])
    && (id in v.st.operations && id !in w.st.operations ==> v.author[id] == t && MayInsert(w, t, id))
    && (id in v.st.operations && id in w.st.operations ==> S.SameRequest(v.st.operations[id], w.st.operations[id]))
    && (id in v.st.operations && id in w.st.operations && IsTerminal(w.st.operations[id].status) ==>
          v.st.operations[id] == w.st.operations[id])
    && (id in w.st.operations && id !in v.st.operations ==> IsTerminal(w.st.operations[id].status) && !Guarded(w, id))
    && (Live(w, id) ==> S.KeptOrFlushed(w.st, v.st, id) || MayMove(w, t, id))
  }

  /** Records that retention may not remove: a request is replaying it, or the
      journal on disk names it. */
  ghost predicate Guarded(w: World, id: string) {
    || (exists u :: u in w.threads && Replaying(w.threads[u]) && w.threads[u].request.operation == id)
    || (w.journal.Some? && w.journal.value.operation == id)
  }

  ghost predicate SharedStep(w: World, v: World, t: nat) {
    && v.limits == w.limits && v.next >= w.next
    && (v.c.preparing == w.c.preparing || (ByThread(w.c.preparing, t) && ByThread(v.c.preparing, t)))
    && (v.c.active == w.c.active || ((w.c.active.None? || w.c.active == Some(t))
                                     && (v.c.active.None? || v.c.active == Some(t))))
    && (forall u :: u != t ==> (u in v.c.spent <==> u in w.c.spent))
    && (forall u :: u != t ==> (u in v.started <==> u in w.started))
    && (forall u :: u != t ==> (u in v.leaked <==> u in w.leaked))
    && (forall u :: u != t ==> (u in v.raced <==> u in w.raced))
    && (w.c.settlementPending ==> v.c.settlementPending)
    && w.leaked <= v.leaked && w.raced <= v.raced
    && (v.journal == w.journal || (t in w.threads && w.threads[t].leased))
  }

  ghost predicate Frame(w: World, v: World, t: nat) {
    SharedStep(w, v, t) && forall id :: id in w.st.operations || id in v.st.operations ==> RecordStep(w, v, t, id)
  }

  ghost predicate Same(w: World, v: World, u: nat) {
    u in w.threads && u in v.threads && v.threads[u] == w.threads[u]
  }

  lemma OtherHolds(w: World, v: World, t: nat, u: nat)
    requires Inv(w) && SharedStep(w, v, t) && u != t && Same(w, v, u)
    ensures Holds(v, u)
  {
    assert ThreadOk(w, u);
  }

  lemma OtherAuthorship(w: World, v: World, t: nat, u: nat)
    requires Inv(w) && Frame(w, v, t) && u != t && Same(w, v, u) && v.author.Keys == v.st.operations.Keys
    ensures Authorship(v, u)
  {
    assert ThreadOk(w, u);
    forall id | id in v.author && v.author[id] == u ensures id in w.author && w.author[id] == u {
      assert RecordStep(w, v, t, id);
    }
  }

  /** What a step leaves of the record and the journal that `u` relies on. */
  ghost predicate Carried(w: World, v: World, u: nat, id: string) {
    && (Present(w, u, id) ==>
          && Wrote(v, u, id)
          && (|| v.st.operations[id] == w.st.operations[id]
              || (id in w.st.deferred && v.st.operations[id] == w.st.deferred[id])))
    && (Present(w, u, id) && id in v.st.deferred ==>
          id in w.st.deferred && v.st.deferred[id] == w.st.deferred[id] && v.st.operations[id] == w.st.operations[id])
    && (Resolved(w, u, id) ==> Resolved(v, u, id))
  }

  /** A record that `u` wrote can only be moved on by `u`. */
  lemma OwnRecordStays(w: World, v: World, t: nat, u: nat)
    requires Placed(w, t, u) && Frame(w, v, t) && Same(w, v, u)
    ensures Carried(w, v, u, w.threads[u].request.operation)
  {
    var id := w.threads[u].request.operation;
    if id in w.st.operations || id in v.st.operations {
      assert RecordStep(w, v, t, id);
      if Present(w, u, id) { OthersMayNotMove(w, t, u, id); }
    }
  }

  /** Two threads in a state that is in order. */
  ghost predicate Placed(w: World, t: nat, u: nat) {
    u != t && u in w.threads && ThreadOk(w, u) && (t in w.threads ==> ThreadOk(w, t)) && JournalOk(w) && RecordsOk(w)
  }

  lemma OthersMayNotMove(w: World, t: nat, u: nat, id: string)
    requires Placed(w, t, u) && Present(w, u, id)
    ensures !MayMove(w, t, id)
  {
  }

  /** While `u` holds the lease, the journal does not move. */
  lemma OtherJournal(w: World, v: World, t: nat, u: nat)
    requires Inv(w) && SharedStep(w, v, t) && u != t && Same(w, v, u)
    ensures w.threads[u].leased ==> v.journal == w.journal
  {
    assert ThreadOk(w, u);
    if t in w.threads { assert ThreadOk(w, t); }
  }

  /** While `u` holds the preparation, nobody else puts a record in. */
  ghost predicate Alone(w: World, v: World, u: nat, id: string) {
    && (id in v.st.operations ==> id in w.st.operations && S.SameRequest(v.st.operations[id], w.st.operations[id]))
    && (id in v.st.operations && !Live(w, id) ==> !Live(v, id))
    && (NoOneElses(w, u, id) ==> NoOneElses(v, u, id))
  }

  lemma OtherInsertion(w: World, v: World, t: nat, u: nat)
    requires Inv(w) && Frame(w, v, t) && u != t && Same(w, v, u)
    requires Engaged(w.threads[u]) && !w.threads[u].leased
    ensures Alone(w, v, u, w.threads[u].request.operation)
  {
    var id := w.threads[u].request.operation;
    assert ThreadOk(w, u);
    if id in w.st.operations || id in v.st.operations {
      assert RecordStep(w, v, t, id);
    }
  }

  lemma OtherReplay(w: World, v: World, t: nat, u: nat)
    requires Inv(w) && Frame(w, v, t) && u != t && Same(w, v, u) && Replaying(w.threads[u])
    ensures w.threads[u].request.operation in v.st.operations
  {
    assert ThreadOk(w, u);
    var id := w.threads[u].request.operation;
    assert RecordStep(w, v, t, id);
    assert Guarded(w, id);
  }

  lemma CarriedLeave(w: World, v: World, u: nat, id: string)
    requires Same(w, v, u) && w.threads[u].request.operation == id
    requires Carried(w, v, u, id) && S.Onward(w.st, id)
    requires w.threads[u].leased ==> v.journal == w.journal
    requires w.raced <= v.raced && w.leaked <= v.leaked && (w.c.settlementPending ==> v.c.settlementPending)
    ensures MayLeave(w, u) ==> MayLeave(v, u)
  {
  }

  lemma CarriedConfirms(w: World, v: World, u: nat, id: string, goal: S.Goal, after: After)
    requires Same(w, v, u) && w.threads[u].request.operation == id
    requires Carried(w, v, u, id) && S.Onward(w.st, id) && w.raced <= v.raced
    requires after.AfterCancel? ==> Alone(w, v, u, id)
    requires !after.AfterCancel? && !after.AfterReject? ==> v.journal == w.journal
    ensures Confirms(w, u, goal, after) ==> Confirms(v, u, goal, after)
  {
  }

  lemma CarriedTransits(w: World, v: World, u: nat, id: string, goal: S.Goal, after: After)
    requires Same(w, v, u) && w.threads[u].request.operation == id
    requires Carried(w, v, u, id) && S.Onward(w.st, id) && w.raced <= v.raced
    requires !w.threads[u].leased ==> Alone(w, v, u, id)
    requires !after.AfterCancel? && !after.AfterReject? ==> v.journal == w.journal
    ensures Transits(w, u, goal, after) ==> Transits(v, u, goal, after)
  {
  }

  lemma CarriedPreparing(w: World, v: World, u: nat, id: string)
    requires Same(w, v, u) && w.threads[u].request.operation == id
    requires Carried(w, v, u, id) && S.Onward(w.st, id) && Alone(w, v, u, id)
    requires var pc := w.threads[u].pc;
      pc.Tombstone? || pc.TombstoneLookup? || pc.ReserveRecord? || pc.ReserveLookup? || pc.ReserveJob?
      || pc.ReadFilesAgain? || pc.AwaitPromote?
    ensures Relies(w, u) ==> Relies(v, u)
  {
  }

  lemma CarriedWorking(w: World, v: World, u: nat, id: string)
    requires Same(w, v, u) && w.threads[u].request.operation == id
    requires Carried(w, v, u, id) && S.Onward(w.st, id) && v.journal == w.journal && w.raced <= v.raced
    requires var pc := w.threads[u].pc;
      pc.Admitted? || pc.Working? || pc.MarkingJournal? || pc.Journaled? || pc.Judging? || pc.CheckingLink?
      || pc.Repairing?
    ensures Relies(w, u) ==> Relies(v, u)
  {
  }

  lemma CarriedClears(w: World, v: World, u: nat, id: string, purpose: Purpose)
    requires Same(w, v, u) && w.threads[u].request.operation == id
    requires Carried(w, v, u, id) && S.Onward(w.st, id) && v.journal == w.journal
    requires w.journal.Some? && w.journal.value.operation == id && id != "" && !Live(w, id) ==> !Live(v, id)
    ensures Clears(w, u, purpose) ==> Clears(v, u, purpose)
  {
  }

  /** A settled record with a journal on disk stays settled. */
  lemma JournaledStaysSettled(w: World, v: World, t: nat, id: string)
    requires Inv(w) && Frame(w, v, t) && w.journal.Some? && w.journal.value.operation == id && id != "" && !Live(w, id)
    ensures !Live(v, id)
  {
    assert Wrote(w, w.journal.value.author, id);
    assert RecordStep(w, v, t, id);
  }

  /** All that `u` needs to know about a step of another thread. */
  ghost predicate Context(w: World, v: World, u: nat, id: string) {
    && Same(w, v, u) && w.threads[u].request.operation == id
    && Carried(w, v, u, id) && S.Onward(w.st, id)
    && w.raced <= v.raced && w.leaked <= v.leaked && (w.c.settlementPending ==> v.c.settlementPending)
    && (w.threads[u].leased ==> v.journal == w.journal)
    && (Engaged(w.threads[u]) && !w.threads[u].leased ==> Alone(w, v, u, id))
    && (Replaying(w.threads[u]) ==> id in v.st.operations)
    && (w.journal.Some? && w.journal.value.operation == id && id != "" && !Live(w, id) ==> !Live(v, id))
  }

  lemma OtherContext(w: World, v: World, t: nat, u: nat)
    requires Inv(w) && Frame(w, v, t) && u != t && Same(w, v, u)
    ensures Context(w, v, u, w.threads[u].request.operation)
  {
    var th := w.threads[u];
    var id := th.request.operation;
    assert S.Onward(w.st, id);
    assert Placed(w, t, u);
    OwnRecordStays(w, v, t, u);
    OtherJournal(w, v, t, u);
    if Engaged(th) && !th.leased { OtherInsertion(w, v, t, u); }
    if Replaying(th) { OtherReplay(w, v, t, u); }
    if w.journal.Some? && w.journal.value.operation == id && id != "" && !Live(w, id) {
      JournaledStaysSettled(w, v, t, id);
    }
  }

  lemma ContextRelies(w: World, v: World, u: nat, id: string)
    requires Context(w, v, u, id) && Shape(w.threads[u]) && Relies(w, u)
    ensures Relies(v, u)
  {
    CarriedLeave(w, v, u, id);
    match w.threads[u].pc
    case Clearing(purpose) => CarriedClears(w, v, u, id, purpose);
    case ClearingPending(purpose) => CarriedClears(w, v, u, id, purpose);
    case Transitioning(goal, after) => CarriedTransits(w, v, u, id, goal, after);
    case Confirming(goal, after) => CarriedConfirms(w, v, u, id, goal, after);
    case Tombstone | TombstoneLookup | ReserveRecord | ReserveLookup | ReserveJob | ReadFilesAgain | AwaitPromote(_) =>
      CarriedPreparing(w, v, u, id);
    case Admitted | Working | MarkingJournal | Journaled | Judging | CheckingLink | Repairing =>
      CarriedWorking(w, v, u, id);
    case _ =>
  }

  /** A step of `t` leaves every other thread in order. */
  lemma OtherThreadOk(w: World, v: World, t: nat, u: nat)
    requires Inv(w) && Frame(w, v, t) && u != t && Same(w, v, u) && v.author.Keys == v.st.operations.Keys
    ensures ThreadOk(v, u)
  {
    assert ThreadOk(w, u);
    OtherHolds(w, v, t, u);
    OtherAuthorship(w, v, t, u);
    OtherContext(w, v, t, u);
    ContextRelies(w, v, u, w.threads[u].request.operation);
  }
}
