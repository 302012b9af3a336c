/** One operation's line in the durable store, as the recovery machines see it:
    its status, and the status that is still to be written. */
module Ledger {
  import opened Lifecycle
  import S = OperationStore

  datatype Line = Line(record: Status, deferred: Option<Status>)

  /** A transition is refused on a finished record, deferred when its write is
      not visible. */
  function Moved(line: Line, goal: Status, outcome: WriteOutcome): Line {
    if IsTerminal(line.record) then line
    else if Visible(outcome) then Line(goal, None)
    else Line(line.record, Some(goal))
  }

  /** A retry of the same request writes the deferred status. */
  function Flushed(line: Line, outcome: WriteOutcome): Line {
    if line.deferred.None? || IsTerminal(line.record) || !Visible(outcome) then line
    else Line(line.deferred.value, None)
  }

  /** What start-up makes of the record, by whether a journal names it. */
  function Recovered(record: Status, journaled: bool): Status {
    if IsTerminal(record) then record else if journaled then RecoveryRequired else Cancelled
  }

  // ------------------------------------------------- What the store really does

  function View(s: S.Store, id: string): Line
    requires id in s.operations
  {
    Line(s.operations[id].status, if id in s.deferred then Some(s.deferred[id].status) else None)
  }

  // Where there is nothing to change a failed write does no harm: it counts as
  // visible. The machines leave every outcome open, so they cover that too.
  function Effective(outcome: WriteOutcome, idle: bool): WriteOutcome {
    if idle then Persisted else outcome
  }

  /** The store's transition is the ledger's. */
  lemma TransitionIsMoved(s: S.Store, limits: S.Limits, id: string, goal: S.Goal, now: nat, outcome: WriteOutcome)
    requires S.StoreInv(s, limits) && id in s.operations && S.ValidRecord(S.Apply(s.operations[id], goal, now))
    ensures var t := S.Transition(s, limits, id, goal, now, outcome).0;
      && id in t.operations
      && View(t, id) ==
          Moved(View(s, id), goal.status, Effective(outcome, s.operations[id] == S.Apply(s.operations[id], goal, now)))
  {
    if id in s.deferred {
      assert S.Shadows(s.operations, s.deferred[id]);
    }
  }

  /** A retry of the request that finds its record is the ledger's flush. */
  lemma ReplayIsFlushed(s: S.Store, limits: S.Limits, request: S.Record, now: nat, outcome: WriteOutcome)
    requires S.StoreInv(s, limits) && request.id in s.operations && S.SameRequest(s.operations[request.id], request)
    ensures var t := S.Reserve(s, limits, request, now, outcome).0; var id := request.id;
      && id in t.operations
      && View(t, id) == Flushed(View(s, id), Effective(outcome, id in s.deferred && s.operations[id] == s.deferred[id]))
  {
    if request.id in s.deferred {
      assert S.Shadows(s.operations, s.deferred[request.id]);
    }
  }

  /** Retention does not look at the journal: a finished record that is old
      enough is dropped by the next new reservation, by the next transition of
      another record, and at start-up, even if the journal names it. */
  lemma ExpiryIgnoresTheJournal(
    s: S.Store, limits: S.Limits, id: string, now: nat, outcome: WriteOutcome,
    request: S.Record, other: string, goal: S.Goal)
    requires S.StoreInv(s, limits) && id in s.operations && S.Expired(s.operations[id], now, limits.retention)
    ensures var (t, r) := S.Reserve(s, limits, request, now, outcome); r.Reserved? ==> id !in t.operations
    ensures var (t, r) := S.Transition(s, limits, other, goal, now, outcome);
      r.Moved? && !IsTerminal(s.operations[other].status) ==> id !in t.operations
    ensures var (t, ok) := S.Recover(s, limits, id, now, outcome); ok ==> id !in t.operations
  {
    assert id !in S.Prune(s.operations, now, limits.retention);
  }

  /** Start-up that succeeds leaves every record it keeps as the ledger says. */
  lemma StartupIsRecovered(
    file: S.Records, limits: S.Limits, journalId: string, now: nat, outcome: WriteOutcome,
    later: nat, retry: WriteOutcome, id: string)
    requires S.WellKeyed(file) && |file| <= limits.maxEntries && id in file
    ensures var (t, ok) := S.Startup(file, limits, journalId, now, outcome, later, retry);
      ok && id in t.operations ==>
        View(t, id) == Line(Recovered(file[id].status, journalId != "" && id == journalId), None)
  {
    S.StartupSettles(file, limits, journalId, now, outcome, later, retry);
    var s0 := S.Store(file, map[], file);
    var (s1, first) := S.Recover(s0, limits, journalId, now, outcome);
    RecoverRecovers(s0, limits, journalId, now, outcome, id);
    if !first && id in s1.operations {
      S.RecoverKeepsInv(s0, limits, journalId, now, outcome);
      RecoverRecovers(s1, limits, journalId, later, retry, id);
    }
  }

  lemma RecoverRecovers(s: S.Store, limits: S.Limits, journalId: string, now: nat, outcome: WriteOutcome, id: string)
    requires S.StoreInv(s, limits) && id in s.operations
    ensures var (t, ok) := S.Recover(s, limits, journalId, now, outcome);
      id in t.operations ==>
        var goal := Recovered(s.operations[id].status, journalId != "" && id == journalId);
        (t.operations[id].status == goal || (!ok && t.operations[id] == s.operations[id])) && t.deferred == s.deferred
  {
  }
}
