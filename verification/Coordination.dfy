/** Admission to the control plane. One step per critical section of the
    coordinator's lock: a blocked caller's step ends in `Waiting`, and its next
    step after a broadcast re-tests only the loop, not what it read before. */
module Coordination {
  import opened Lifecycle

  /** A request between its admission and its settlement or promotion. `attempt`
      is the maintenance token it presented, empty for none; `refused` says that
      admission recorded the token as unusable. */
  datatype Preparation = Preparation(
    id: nat,
    kind: Kind,
    operation: string,
    subject: string,
    fingerprint: string,
    attempt: string,
    refused: bool)

  datatype MaintenanceLease = MaintenanceLease(token: string, operation: string, job: string, consumed: bool)

  /** Preparations, leases and contexts are named by the number of the request
      they belong to. `cancelled` holds the cancelled contexts, `spent` the
      preparations whose cleanup has already run, `broadcasts` counts wake-ups. */
  datatype Coord = Coord(
    closed: bool,
    journalPending: bool,
    active: Option<nat>,
    preparing: Option<Preparation>,
    settlementPending: bool,
    lease: Option<MaintenanceLease>,
    cancelled: set<nat>,
    spent: set<nat>,
    broadcasts: nat)

  datatype Turn = Granted | Waiting | Refused | NotPending

  function Startup(marker: bool, journal: bool): Coord {
    Coord(marker || journal, journal, None, None, false, None, {}, {}, 0)
  }

  predicate Busy(c: Coord) {
    c.active.Some? || c.preparing.Some?
  }

  function Broadcast(c: Coord): Coord {
    c.(broadcasts := c.broadcasts + 1)
  }

  /** Merge what was read of the marker and journal files before the lock. */
  function Observe(c: Coord, marker: bool, journal: bool): Coord {
    var d := if marker then c.(closed := true) else c;
    if journal && c.active.None? then d.(closed := true, journalPending := true) else d
  }

  predicate LeasedKind(p: Preparation) {
    p.kind.CreateKind? || (p.kind.ResetKind? && p.subject == "pep")
  }

  predicate Presents(lease: Option<MaintenanceLease>, p: Preparation) {
    && lease.Some?
    && !lease.value.consumed
    && lease.value.token == p.attempt
    && (lease.value.operation == "" || lease.value.operation == p.operation)
  }

  predicate Unsettled(c: Coord) {
    c.settlementPending || (c.journalPending && c.active.None?)
  }

  function PrepareTurn(c: Coord, p: Preparation): (Coord, Turn) {
    if c.preparing.Some? && !c.closed then
      (c, Waiting)
    else if Unsettled(c) || c.preparing.Some? then
      (c, Refused)
    else if p.kind.ResetKind? && p.attempt != "" && !c.closed then
      (c, Refused)
    else if c.closed && (!LeasedKind(p) || p.operation == "" || p.attempt == "") then
      (c, Refused)
    else
      (c.(preparing := Some(p.(refused := c.closed && !Presents(c.lease, p)))), Granted)
  }

  function Complete(c: Coord, id: nat, settled: bool): Coord {
    if id in c.spent then
      c
    else
      Broadcast(c.(
        spent := c.spent + {id},
        cancelled := c.cancelled + {id},
        settlementPending := c.settlementPending || !settled,
        closed := c.closed || !settled,
        preparing := if c.preparing.Some? && c.preparing.value.id == id then None else c.preparing))
  }

  function MarkSettlementPending(c: Coord): Coord {
    Broadcast(c.(settlementPending := true, closed := true))
  }

  predicate Promotable(c: Coord, p: Preparation) {
    && c.preparing == Some(p)
    && p.id !in c.cancelled
    && !p.refused
    && !Unsettled(c)
    && (p.kind.ResetKind? && p.attempt != "" ==> c.closed)
    && (c.closed ==> LeasedKind(p) && p.operation != "" && p.attempt != "" && Presents(c.lease, p))
  }

  function Promoted(c: Coord, p: Preparation, job: string): Coord {
    Broadcast(c.(
      lease :=
        if c.closed && c.lease.Some?
        then Some(c.lease.value.(consumed := true, operation := p.operation, job := job))
        else c.lease,
      active := Some(p.id),
      preparing := None,
      spent := c.spent + {p.id}))
  }

  /** `claimed` is the answer the job table gives if it is asked. */
  function PromoteTurn(c: Coord, p: Preparation, job: string, claimed: bool): (Coord, Turn) {
    if !Promotable(c, p) then (c, Refused)
    else if c.active.Some? then (c, Waiting)
    else if !claimed then (c, NotPending)
    else (Promoted(c, p, job), Granted)
  }

  function BeginTurn(c: Coord, id: nat, journal: bool, claimed: bool): (Coord, Turn) {
    if Busy(c) && !c.closed then (c, Waiting)
    else if c.settlementPending || c.closed || c.journalPending || journal then (c.(closed := true), Refused)
    else if !claimed then (c, NotPending)
    else (c.(active := Some(id)), Granted)
  }

  function BeginRecoveryTurn(c: Coord, id: nat, journal: bool): (Coord, Turn) {
    if Busy(c) then (c, Waiting)
    else if !c.journalPending && !journal then (c, Refused)
    else (c.(closed := true, journalPending := true, active := Some(id)), Granted)
  }

  function MarkJournalPending(c: Coord): Coord {
    Broadcast(c.(journalPending := true, closed := c.closed || c.active.None?))
  }

  function ClearJournalPending(c: Coord, marker: bool): Coord {
    Broadcast(c.(journalPending := false, closed := c.closed && (c.settlementPending || marker)))
  }

  function Probe(c: Coord, journal: bool): Coord {
    c.(journalPending := c.journalPending || journal)
  }

  function Done(c: Coord, id: nat, journal: bool): Coord {
    var d := c.(cancelled := c.cancelled + {id});
    if c.active == Some(id) then
      Broadcast(d.(closed := c.closed || c.journalPending || journal, active := None))
    else
      d
  }

  // The marker is on disk before this section sets the barrier.
  function EnterMaintenance(c: Coord): Coord {
    Broadcast(c.(
      closed := true,
      cancelled := c.cancelled
        + (if c.preparing.Some? then {c.preparing.value.id} else {})
        + (if c.active.Some? then {c.active.value} else {})))
  }

  datatype DrainTurn = Issued(token: string) | StillBusy | LeaseUsed

  function DrainedTurn(c: Coord, token: string): (Coord, DrainTurn) {
    if Busy(c) then (c, StillBusy)
    else if c.lease.None? then (c.(lease := Some(MaintenanceLease(token, "", "", false))), Issued(token))
    else if c.lease.value.consumed then (c, LeaseUsed)
    else (c, Issued(c.lease.value.token))
  }

  predicate Idle(c: Coord, marker: bool, journal: bool) {
    !Busy(c) && !c.settlementPending && !c.closed && !c.journalPending && !marker && !journal
  }

  /** `outcome` is what happened to the durable write of the marker. */
  function EnterIfIdle(c: Coord, marker: bool, journal: bool, token: string, outcome: WriteOutcome): (Coord, bool) {
    if !Idle(c, marker, journal) then (c, false)
    else match outcome
      case NotCommitted => (c, false)
      case CommittedUnsynced => (Broadcast(c.(closed := true, lease := None)), false)
      case Persisted => (Broadcast(c.(closed := true, lease := Some(MaintenanceLease(token, "", "", false)))), true)
  }

  datatype LeaveTurn = AlreadyOpen | NotDrained | SettlementRequired | RecoveryNeeded | MarkerKept | Opened

  /** `removed` says whether the marker file could be removed. */
  function Leave(c: Coord, journal: bool, removed: bool): (Coord, LeaveTurn) {
    if !c.closed then (c, AlreadyOpen)
    else if Busy(c) then (c, NotDrained)
    else if c.settlementPending then (c, SettlementRequired)
    else if c.journalPending || journal then (c.(journalPending := true), RecoveryNeeded)
    else if !removed then (c, MarkerKept)
    else (Broadcast(c.(lease := None, closed := false)), Opened)
  }

  // -------------------------------------------------- Stale pre-lock reads

  /** A request that read the journal just before its owner removed it closes
      the barrier for good: no journal exists, so no repair can clear the flag. */
  lemma StaleJournalReadWedges(c: Coord, id: nat, marker: bool, p: Preparation)
    requires c.active == Some(id) && c.preparing.None? && !c.closed && !c.settlementPending && !marker
    ensures var cleared := Done(ClearJournalPending(MarkJournalPending(c), marker), id, false);
      var (late, turn) := PrepareTurn(Observe(cleared, marker, true), p);
      && Idle(cleared, marker, false)
      && turn == Refused && late.closed && late.journalPending && late.active.None?
      && (forall removed :: Leave(late, false, removed).1 == RecoveryNeeded)
  {
  }

  /** With reads that are current, a barrier closed only by a journal reopens. */
  lemma CurrentReadsKeepTheFlagHonest(c: Coord, marker: bool, journal: bool)
    requires c.journalPending && c.active.None? ==> journal
    ensures var d := Observe(c, marker, journal); d.journalPending && d.active.None? ==> journal
  {
  }

  /** A stale read also lets a maintenance lease promote over a journal that is
      on disk: the lease was issued while the barrier had been reopened, and the
      owner's journal write failed only after becoming visible. */
  lemma StalePromotionOverJournal(c: Coord, worker: nat, p: Preparation, token: string, job: string)
    requires !Busy(c) && !c.closed && !c.settlementPending && !c.journalPending && c.lease.None?
    requires p.kind.CreateKind? && p.operation != "" && p.attempt == token && token != "" && !p.refused
    requires p.id != worker && p.id !in c.cancelled
    ensures
      var issued := DrainedTurn(c, token).0;                                // second half of an entry, after a leave
      var working := BeginTurn(issued, worker, false, true).0;              // an ordinary worker
      var prepared := PrepareTurn(Observe(working, false, false), p).0;     // the leased create, reads: no journal
      var drained := Done(prepared, worker, true);                          // visible journal, unsynced write, release
      var (after, turn) := PromoteTurn(Observe(drained, false, false), p, job, true);
      && drained.closed && !drained.journalPending
      && turn == Granted && after.active == Some(p.id)
  {
  }
}
