/** The durable operation store: idempotent reservations, transitions whose
    file replacement may fail before or after it becomes visible, settlements
    deferred until a retry can write them, retention, and restart recovery. */
module OperationStore {
  import opened Lifecycle

  const MAX_SUBJECT_LENGTH := 48

  // Times are nanoseconds; zero stands for the unset time.
  datatype Record = Record(
    id: string,
    kind: Kind,
    subject: string,
    fingerprint: string,
    status: Status,
    http: int,
    message: Message,
    created: nat,
    updated: nat)

  type Records = map<string, Record>

  /** `file` is what a reader of the store's path sees at this moment. */
  datatype Store = Store(operations: Records, deferred: Records, file: Records)

  datatype Limits = Limits(maxEntries: nat, retention: nat)

  predicate SameRequest(a: Record, b: Record) {
    a.kind == b.kind && a.subject == b.subject && a.fingerprint == b.fingerprint
  }

  predicate ValidRecord(r: Record) {
    && IsHex(r.id, 32)
    && 0 < |r.subject| <= MAX_SUBJECT_LENGTH
    && (forall i :: 0 <= i < |r.subject| ==> IsAlphanumeric(r.subject[i]))
    && IsHex(r.fingerprint, 64)
    && (r.http == 0 || 100 <= r.http <= 599)
    && 0 < r.created <= r.updated
  }

  predicate Expired(r: Record, now: nat, retention: nat) {
    IsTerminal(r.status) && r.updated + retention <= now
  }

  function Prune(operations: Records, now: nat, retention: nat): Records {
    map id | id in operations && !Expired(operations[id], now, retention) :: operations[id]
  }

  function Install(s: Store, next: Records, outcome: WriteOutcome): Store {
    if Visible(outcome) then s.(operations := next, file := next) else s
  }

  // ---------------------------------------------------------------- Reserve

  datatype ReserveResult =
    | Reserved(record: Record)            // a new record, durable
    | Existing(record: Record)            // a replay of the same request
    | SettlementPending(record: Record)   // a replay whose deferred settlement could not be written
    | Conflict
    | Invalid
    | Full
    | PersistFailed

  function Stamped(r: Record, now: nat): Record {
    var created := if r.created == 0 then now else r.created;
    r.(created := created, updated := if r.updated == 0 then created else r.updated)
  }

  function Reserve(s: Store, limits: Limits, request: Record, now: nat, outcome: WriteOutcome): (Store, ReserveResult) {
    if request.id in s.operations then
      var existing := s.operations[request.id];
      if !SameRequest(existing, request) then
        (s, Conflict)
      else if request.id in s.deferred then
        var settlement := s.deferred[request.id];
        var t := Install(s, s.operations[request.id := settlement], outcome);
        if t.operations[request.id] == settlement || outcome.Persisted? then
          (t.(deferred := t.deferred - {request.id}), Existing(settlement))
        else
          (t, SettlementPending(existing))
      else
        (s, Existing(existing))
    else
      var record := Stamped(request, now);
      if !ValidRecord(record) then
        (s, Invalid)
      else
        var next := Prune(s.operations, now, limits.retention);
        if |next| >= limits.maxEntries then
          (s, Full)
        else
          (Install(s, next[record.id := record], outcome),
           if outcome.Persisted? then Reserved(record) else PersistFailed)
  }

  // ------------------------------------------------------------- Transition

  /** The part of a record that a transition sets. */
  datatype Goal = Goal(status: Status, http: int, message: Message)

  datatype TransitionResult = Moved(record: Record) | Missing | AlreadyTerminal | Refused | WriteFailed

  predicate Shows(operations: Records, id: string, goal: Goal) {
    && id in operations
    && operations[id].status == goal.status
    && operations[id].http == goal.http
    && operations[id].message == goal.message
  }

  function Apply(r: Record, goal: Goal, now: nat): Record {
    r.(status := goal.status, http := goal.http, message := goal.message, updated := now)
  }

  function Transition(s: Store, limits: Limits, id: string, goal: Goal, now: nat,
                      outcome: WriteOutcome): (Store, TransitionResult) {
    if id !in s.operations then
      (s, Missing)
    else if IsTerminal(s.operations[id].status) then
      (s, if Shows(s.operations, id, goal) then Moved(s.operations[id]) else AlreadyTerminal)
    else if !ValidRecord(Apply(s.operations[id], goal, now)) then
      (s, Refused)
    else
      Move(s, limits, id, Apply(s.operations[id], goal, now), now, outcome)
  }

  function Move(s: Store, limits: Limits, id: string, moved: Record, now: nat,
                outcome: WriteOutcome): (Store, TransitionResult) {
    var t := Install(s, Prune(s.operations, now, limits.retention)[id := moved], outcome);
    if outcome.Persisted? then
      (t.(deferred := t.deferred - {id}), Moved(moved))
    else if id in t.operations && t.operations[id] == moved then
      (t.(deferred := t.deferred - {id}), WriteFailed)
    else
      (t.(deferred := t.deferred[id := moved]), WriteFailed)
  }

  /** The callers' wrapper: a failed transition still counts when a lookup
      afterwards, in whatever state the store is by then, shows the goal. */
  predicate Confirmed(result: TransitionResult, later: Records, id: string, goal: Goal) {
    result.Moved? || Shows(later, id, goal)
  }

  // ---------------------------------------------------------------- Recover

  function Recovered(r: Record, journalId: string, now: nat): Record {
    if IsTerminal(r.status) then
      r
    else if journalId != "" && r.id == journalId then
      r.(status := RecoveryRequired, http := 202, message := RecoveryMessage, updated := now)
    else
      r.(status := Cancelled, http := 409, message := RestartInterrupted, updated := now)
  }

  function RecoveredAll(operations: Records, journalId: string, now: nat): Records {
    map id | id in operations :: Recovered(operations[id], journalId, now)
  }

  function Recover(s: Store, limits: Limits, journalId: string, now: nat, outcome: WriteOutcome): (Store, bool) {
    var kept := Prune(s.operations, now, limits.retention);
    var next := RecoveredAll(kept, journalId, now);
    if exists id :: id in next && !IsTerminal(kept[id].status) && !ValidRecord(next[id]) then
      (s, false)
    else if kept == s.operations && (forall id :: id in kept ==> IsTerminal(kept[id].status)) then
      (s, true)
    else
      (Install(s, next, outcome), outcome.Persisted?)
  }

  // -------------------------------------------------------------- Invariant

  /** A deferred settlement shadows a record that is present, is the same
      request, and has not reached a terminal status. */
  predicate Shadows(operations: Records, settlement: Record) {
    && settlement.id in operations
    && SameRequest(settlement, operations[settlement.id])
    && settlement.created == operations[settlement.id].created
    && !IsTerminal(operations[settlement.id].status)
    && ValidRecord(settlement)
  }

  predicate Deferring(s: Store) {
    forall id :: id in s.deferred ==> s.deferred[id].id == id && Shadows(s.operations, s.deferred[id])
  }

  predicate WellKeyed(operations: Records) {
    forall id :: id in operations ==> operations[id].id == id && ValidRecord(operations[id])
  }

  predicate StoreInv(s: Store, limits: Limits) {
    && s.file == s.operations
    && |s.operations| <= limits.maxEntries
    && WellKeyed(s.operations)
    && Deferring(s)
  }

  lemma PruneShrinks(operations: Records, now: nat, retention: nat)
    ensures |Prune(operations, now, retention)| <= |operations|
  {
    SubsetSize(Prune(operations, now, retention).Keys, operations.Keys);
    assert |Prune(operations, now, retention)| == |Prune(operations, now, retention).Keys|;
    assert |operations| == |operations.Keys|;
  }

  lemma ReplayKeepsInv(s: Store, limits: Limits, request: Record, now: nat, outcome: WriteOutcome)
    requires StoreInv(s, limits) && request.id in s.operations
    ensures StoreInv(Reserve(s, limits, request, now, outcome).0, limits)
  {
    if request.id in s.deferred {
      assert Shadows(s.operations, s.deferred[request.id]);
      assert s.operations[request.id := s.deferred[request.id]].Keys == s.operations.Keys;
    }
  }

  /** Every store call keeps the invariant, whatever its write does. */
  lemma ReserveKeepsInv(s: Store, limits: Limits, request: Record, now: nat, outcome: WriteOutcome)
    requires StoreInv(s, limits)
    ensures StoreInv(Reserve(s, limits, request, now, outcome).0, limits)
  {
    PruneShrinks(s.operations, now, limits.retention);
    if request.id in s.operations { ReplayKeepsInv(s, limits, request, now, outcome); }
  }

  predicate Movable(s: Store, id: string, moved: Record) {
    && id in s.operations
    && !IsTerminal(s.operations[id].status)
    && moved.id == id
    && ValidRecord(moved)
    && SameRequest(moved, s.operations[id])
    && moved.created == s.operations[id].created
  }

  lemma MoveKeepsRecords(s: Store, limits: Limits, id: string, moved: Record, now: nat, outcome: WriteOutcome)
    requires StoreInv(s, limits) && Movable(s, id, moved)
    ensures var t := Move(s, limits, id, moved, now, outcome).0;
      t.file == t.operations && WellKeyed(t.operations) && |t.operations| <= limits.maxEntries
  {
    PruneShrinks(s.operations, now, limits.retention);
    var next := Prune(s.operations, now, limits.retention);
    assert next[id := moved].Keys == next.Keys;
    assert |next[id := moved]| == |next[id := moved].Keys|;
    assert |next| == |next.Keys|;
  }

  lemma MoveKeepsDeferring(s: Store, limits: Limits, id: string, moved: Record, now: nat, outcome: WriteOutcome)
    requires StoreInv(s, limits) && Movable(s, id, moved)
    ensures Deferring(Move(s, limits, id, moved, now, outcome).0)
  {
    var t := Move(s, limits, id, moved, now, outcome).0;
    forall k | k in t.deferred ensures t.deferred[k].id == k && Shadows(t.operations, t.deferred[k]) {
      if k != id {
        assert k in s.deferred && Shadows(s.operations, s.deferred[k]);
        assert t.operations[k] == s.operations[k];
      }
    }
  }

  lemma TransitionKeepsInv(s: Store, limits: Limits, id: string, goal: Goal, now: nat, outcome: WriteOutcome)
    requires StoreInv(s, limits)
    ensures StoreInv(Transition(s, limits, id, goal, now, outcome).0, limits)
  {
    if id in s.operations && !IsTerminal(s.operations[id].status) && ValidRecord(Apply(s.operations[id], goal, now)) {
      var moved := Apply(s.operations[id], goal, now);
      MoveKeepsRecords(s, limits, id, moved, now, outcome);
      MoveKeepsDeferring(s, limits, id, moved, now, outcome);
    }
  }

  // ------------------------------------------------------------------- Runs

  datatype Call =
    | ReserveCall(request: Record, now: nat, outcome: WriteOutcome)
    | TransitionCall(id: string, goal: Goal, now: nat, outcome: WriteOutcome)

  function Step(s: Store, limits: Limits, call: Call): Store {
    match call
    case ReserveCall(request, now, outcome) => Reserve(s, limits, request, now, outcome).0
    case TransitionCall(id, goal, now, outcome) => Transition(s, limits, id, goal, now, outcome).0
  }

  function Run(s: Store, limits: Limits, calls: seq<Call>): Store
    decreases |calls|
  {
    if calls == [] then s else Run(Step(s, limits, calls[0]), limits, calls[1..])
  }

  lemma StepKeepsInv(s: Store, limits: Limits, call: Call)
    requires StoreInv(s, limits)
    ensures StoreInv(Step(s, limits, call), limits)
  {
    match call
    case ReserveCall(request, now, outcome) => ReserveKeepsInv(s, limits, request, now, outcome);
    case TransitionCall(id, goal, now, outcome) => TransitionKeepsInv(s, limits, id, goal, now, outcome);
  }

  /** Over any calls with any write failures: what is in memory is what is on
      disk, capacity holds, and deferred settlements only shadow live records. */
  lemma {:induction false} RunKeepsInv(s: Store, limits: Limits, calls: seq<Call>)
    requires StoreInv(s, limits)
    ensures StoreInv(Run(s, limits, calls), limits)
    decreases |calls|
  {
    if calls != [] {
      StepKeepsInv(s, limits, calls[0]);
      RunKeepsInv(Step(s, limits, calls[0]), limits, calls[1..]);
    }
  }

  lemma StepKeepsTerminal(s: Store, limits: Limits, call: Call, id: string)
    requires StoreInv(s, limits) && id in s.operations && IsTerminal(s.operations[id].status)
    ensures var t := Step(s, limits, call);
      if id in t.operations then t.operations[id] == s.operations[id]
      else Expired(s.operations[id], call.now, limits.retention)
  {
    if call.ReserveCall? && call.request.id in s.deferred {
      assert Shadows(s.operations, s.deferred[call.request.id]);
    }
  }

  /** A terminal record never changes: it stays as it is until some call finds
      it past its retention and removes it. */
  lemma {:induction false} TerminalIsFinal(s: Store, limits: Limits, calls: seq<Call>, id: string)
    requires StoreInv(s, limits) && id in s.operations && IsTerminal(s.operations[id].status)
    ensures
      || (id in Run(s, limits, calls).operations && Run(s, limits, calls).operations[id] == s.operations[id])
      || exists k :: 0 <= k < |calls| && id !in Run(s, limits, calls[..k + 1]).operations
                     && Expired(s.operations[id], calls[k].now, limits.retention)
    decreases |calls|
  {
    if calls != [] {
      var t := Step(s, limits, calls[0]);
      StepKeepsInv(s, limits, calls[0]);
      StepKeepsTerminal(s, limits, calls[0], id);
      if id !in t.operations {
        assert calls[..1] == [calls[0]];
        assert Run(s, limits, calls[..0 + 1]) == Run(t, limits, []);
      } else {
        TerminalIsFinal(t, limits, calls[1..], id);
        var end := Run(t, limits, calls[1..]);
        if !(id in end.operations && end.operations[id] == t.operations[id]) {
          var k :| 0 <= k < |calls[1..]| && id !in Run(t, limits, calls[1..][..k + 1]).operations
                   && Expired(t.operations[id], calls[1..][k].now, limits.retention);
          assert calls[..k + 2][1..] == calls[1..][..k + 1];
          assert Run(s, limits, calls[..k + 2]) == Run(t, limits, calls[1..][..k + 1]);
          assert calls[k + 1] == calls[1..][k];
        }
      }
    }
  }

  /** A request under a used id with another kind, subject or fingerprint changes nothing. */
  lemma ConflictChangesNothing(s: Store, limits: Limits, request: Record, now: nat, outcome: WriteOutcome)
    requires request.id in s.operations && !SameRequest(s.operations[request.id], request)
    ensures Reserve(s, limits, request, now, outcome) == (s, Conflict)
  {
  }

  /** A reservation is reported new exactly when this call put the record there. */
  lemma NewReservationsAreNew(s: Store, limits: Limits, request: Record, now: nat, outcome: WriteOutcome)
    requires StoreInv(s, limits)
    ensures var (t, r) := Reserve(s, limits, request, now, outcome);
      && (r.Reserved? ==>
            request.id !in s.operations && request.id in t.operations && t.operations[request.id] == r.record)
      && (r.Existing? ==>
            && request.id in s.operations
            && SameRequest(s.operations[request.id], request) && t.operations[request.id] == r.record)
      && (request.id !in s.operations && request.id in t.operations ==>
            r.Reserved? || (r.PersistFailed? && outcome.CommittedUnsynced?))
  {
    if request.id in s.deferred {
      assert Shadows(s.operations, s.deferred[request.id]);
    }
  }

  /** With nothing in between, the wrapper says yes if and only if the store
      shows the goal afterwards, whatever the write did. */
  lemma ConfirmationIsExact(s: Store, limits: Limits, id: string, goal: Goal, now: nat, outcome: WriteOutcome)
    requires StoreInv(s, limits)
    ensures var (t, r) := Transition(s, limits, id, goal, now, outcome);
      Confirmed(r, t.operations, id, goal) <==> Shows(t.operations, id, goal)
  {
  }

  // ---------------------------------------------------------------- Restart

  predicate Settled(operations: Records, journalId: string) {
    forall id :: id in operations && !IsTerminal(operations[id].status) ==>
      journalId != "" && id == journalId && operations[id].status == RecoveryRequired
  }

  /** Start-up runs Recover, and once more if the first reports an error. */
  function Startup(file: Records, limits: Limits, journalId: string, now: nat, outcome: WriteOutcome, later: nat,
                   retry: WriteOutcome): (Store, bool) {
    var (s, ok) := Recover(Store(file, map[], file), limits, journalId, now, outcome);
    if ok then (s, true) else Recover(s, limits, journalId, later, retry)
  }

  lemma RecoveredAllIsKeyed(s: Store, limits: Limits, journalId: string, now: nat)
    requires StoreInv(s, limits)
    ensures var next := RecoveredAll(Prune(s.operations, now, limits.retention), journalId, now);
      |next| <= limits.maxEntries && (forall id :: id in next ==> next[id].id == id)
  {
    PruneShrinks(s.operations, now, limits.retention);
    var kept := Prune(s.operations, now, limits.retention);
    var next := RecoveredAll(kept, journalId, now);
    assert next.Keys == kept.Keys;
    assert |next| == |next.Keys| && |kept| == |kept.Keys|;
  }

  lemma RecoverKeepsInv(s: Store, limits: Limits, journalId: string, now: nat, outcome: WriteOutcome)
    requires StoreInv(s, limits) && s.deferred == map[]
    ensures StoreInv(Recover(s, limits, journalId, now, outcome).0, limits)
  {
    RecoveredAllIsKeyed(s, limits, journalId, now);
  }

  /** `after` keeps only records of `before`, and their terminal ones unchanged. */
  predicate Refines(after: Records, before: Records) {
    forall id :: id in after ==>
      id in before && SameRequest(after[id], before[id]) && (IsTerminal(before[id].status) ==> after[id] == before[id])
  }

  lemma RecoverRefines(s: Store, limits: Limits, journalId: string, now: nat, outcome: WriteOutcome)
    requires StoreInv(s, limits)
    ensures var t := Recover(s, limits, journalId, now, outcome).0;
      Refines(t.operations, s.operations) && t.deferred == s.deferred
  {
  }

  lemma RecoveredIsSettled(s: Store, limits: Limits, journalId: string, now: nat, outcome: WriteOutcome)
    requires StoreInv(s, limits)
    ensures var (t, ok) := Recover(s, limits, journalId, now, outcome);
      (t == s || Settled(t.operations, journalId)) && (ok ==> Settled(t.operations, journalId))
  {
  }

  /** Recover touches no terminal record, and reports success only once nothing
      but the journal's own operation is unfinished. */
  lemma RecoverSettles(s: Store, limits: Limits, journalId: string, now: nat, outcome: WriteOutcome)
    requires StoreInv(s, limits)
    ensures var (t, ok) := Recover(s, limits, journalId, now, outcome);
      && Refines(t.operations, s.operations)
      && t.deferred == s.deferred
      && (t == s || Settled(t.operations, journalId))
      && (ok ==> Settled(t.operations, journalId))
  {
    RecoverRefines(s, limits, journalId, now, outcome);
    RecoveredIsSettled(s, limits, journalId, now, outcome);
  }

  lemma StartupSettles(file: Records, limits: Limits, journalId: string, now: nat, outcome: WriteOutcome, later: nat,
                       retry: WriteOutcome)
    requires WellKeyed(file) && |file| <= limits.maxEntries
    ensures var (t, ok) := Startup(file, limits, journalId, now, outcome, later, retry);
      && StoreInv(t, limits)
      && (ok ==> Settled(t.operations, journalId))
      && t.deferred == map[]
      && Refines(t.operations, file)
  {
    var s0 := Store(file, map[], file);
    RecoverKeepsInv(s0, limits, journalId, now, outcome);
    RecoverSettles(s0, limits, journalId, now, outcome);
    var s1 := Recover(s0, limits, journalId, now, outcome).0;
    if !Recover(s0, limits, journalId, now, outcome).1 {
      SecondAttempt(file, s1, limits, journalId, later, retry);
    }
  }

  lemma SecondAttempt(file: Records, s1: Store, limits: Limits, journalId: string, later: nat, retry: WriteOutcome)
    requires StoreInv(s1, limits) && s1.deferred == map[] && Refines(s1.operations, file)
    ensures var (t, ok) := Recover(s1, limits, journalId, later, retry);
      && StoreInv(t, limits)
      && (ok ==> Settled(t.operations, journalId))
      && t.deferred == map[]
      && Refines(t.operations, file)
  {
    RecoverKeepsInv(s1, limits, journalId, later, retry);
    RecoverSettles(s1, limits, journalId, later, retry);
  }

  /** Once settled, recovering again with the same journal changes no status. */
  lemma RecoverAgain(s: Store, limits: Limits, journalId: string, now: nat, outcome: WriteOutcome)
    requires StoreInv(s, limits) && Settled(s.operations, journalId)
    ensures var t := Recover(s, limits, journalId, now, outcome).0;
      forall id :: id in t.operations ==> id in s.operations && t.operations[id].status == s.operations[id].status
  {
  }

  /** Recover forgets to drop deferred settlements, which is harmless only at
      start-up: a Recover that takes effect keeps them in step exactly when the
      journal's operation is the only one deferred. */
  lemma RecoverKeepsDeferringIff(s: Store, limits: Limits, journalId: string, now: nat, outcome: WriteOutcome)
    requires StoreInv(s, limits)
    requires Recover(s, limits, journalId, now, outcome).0 != s
    ensures Deferring(Recover(s, limits, journalId, now, outcome).0) <==>
            forall id :: id in s.deferred ==> journalId != "" && id == journalId
  {
    var t := Recover(s, limits, journalId, now, outcome).0;
    assert t.operations == RecoveredAll(Prune(s.operations, now, limits.retention), journalId, now);
    forall id | id in s.deferred
      ensures id in t.operations && Shadows(s.operations, s.deferred[id])
      ensures IsTerminal(t.operations[id].status) <==> !(journalId != "" && id == journalId)
    {
      assert Shadows(s.operations, s.deferred[id]);
    }
  }

  /** And the harm otherwise: the next identical retry overwrites the
      cancellation with the settlement that was deferred before it. */
  lemma RecoverMidRunRewritesTerminal(s: Store, limits: Limits, journalId: string, now: nat, id: string, later: nat)
    requires StoreInv(s, limits)
    requires id in s.deferred && !(journalId != "" && id == journalId)
    requires Recover(s, limits, journalId, now, Persisted).0 != s
    requires s.deferred[id].status != Cancelled
    ensures var t := Recover(s, limits, journalId, now, Persisted).0;
      var u := Reserve(t, limits, s.operations[id], later, Persisted).0;
      && id in t.operations && t.operations[id].status == Cancelled
      && id in u.operations && u.operations[id].status == s.deferred[id].status
  {
    assert Shadows(s.operations, s.deferred[id]);
  }

  // ------------------------------------------- What a call does to a record

  /** A record keeps its identity, a terminal one its value, and only one past
      its retention disappears. */
  predicate Evolves(s: Store, t: Store, limits: Limits, id: string, now: nat) {
    && (id in s.operations && id in t.operations ==> SameRequest(t.operations[id], s.operations[id]))
    && (id in s.operations && id in t.operations && IsTerminal(s.operations[id].status) ==>
          t.operations[id] == s.operations[id])
    && (id in s.operations && id !in t.operations ==> Expired(s.operations[id], now, limits.retention))
    && (id in s.operations && id !in t.operations ==> IsTerminal(s.operations[id].status))
  }

  /** The record and its deferred settlement are as before, or the settlement
      has been written. */
  predicate KeptOrFlushed(s: Store, t: Store, id: string) {
    id in s.operations && id in t.operations &&
    (|| (t.operations[id] == s.operations[id] && (id in t.deferred <==> id in s.deferred)
         && (id in s.deferred ==> t.deferred[id] == s.deferred[id]))
     || (id in s.deferred && t.operations[id] == s.deferred[id] && id !in t.deferred))
  }

  lemma ReserveEvolves(s: Store, limits: Limits, request: Record, now: nat, outcome: WriteOutcome, id: string)
    requires StoreInv(s, limits)
    ensures var t := Reserve(s, limits, request, now, outcome).0;
      && Evolves(s, t, limits, id, now)
      && (id in s.operations && !IsTerminal(s.operations[id].status) ==> KeptOrFlushed(s, t, id))
      && (id !in s.operations && id in t.operations ==>
            id == request.id && t.operations[id] == Stamped(request, now) && id !in t.deferred)
  {
    if request.id in s.operations {
      ReplayEvolves(s, limits, request, now, outcome, id);
    } else if id in s.deferred {
      assert Shadows(s.operations, s.deferred[id]);
    }
  }

  lemma ReplayEvolves(s: Store, limits: Limits, request: Record, now: nat, outcome: WriteOutcome, id: string)
    requires StoreInv(s, limits) && request.id in s.operations
    ensures var t := Reserve(s, limits, request, now, outcome).0;
      && Evolves(s, t, limits, id, now)
      && (id in s.operations && !IsTerminal(s.operations[id].status) ==> KeptOrFlushed(s, t, id))
      && t.operations.Keys == s.operations.Keys
  {
    if request.id in s.deferred {
      assert Shadows(s.operations, s.deferred[request.id]);
    }
  }

  /** What a reservation or replay does to the store as a whole. */
  ghost predicate Replayed(s: Store, t: Store, limits: Limits, request: Record, now: nat) {
    && StoreInv(t, limits)
    && (forall id :: id in s.operations || id in t.operations ==>
          && Evolves(s, t, limits, id, now)
          && (id in s.operations && !IsTerminal(s.operations[id].status) ==> KeptOrFlushed(s, t, id))
          && (id !in s.operations ==>
                id == request.id && t.operations[id] == Stamped(request, now) && id !in t.deferred))
  }

  lemma ReserveReplays(s: Store, limits: Limits, request: Record, now: nat, outcome: WriteOutcome)
    requires StoreInv(s, limits)
    ensures Replayed(s, Reserve(s, limits, request, now, outcome).0, limits, request, now)
  {
    var t := Reserve(s, limits, request, now, outcome).0;
    ReserveKeepsInv(s, limits, request, now, outcome);
    forall id | id in s.operations || id in t.operations
      ensures && Evolves(s, t, limits, id, now)
              && (id in s.operations && !IsTerminal(s.operations[id].status) ==> KeptOrFlushed(s, t, id))
              && (id !in s.operations ==>
                    id == request.id && t.operations[id] == Stamped(request, now) && id !in t.deferred)
    {
      ReserveEvolves(s, limits, request, now, outcome, id);
    }
  }

  lemma TransitionEvolves(s: Store, limits: Limits, k: string, goal: Goal, now: nat, outcome: WriteOutcome, id: string)
    requires StoreInv(s, limits)
    ensures var t := Transition(s, limits, k, goal, now, outcome).0;
      && Evolves(s, t, limits, id, now)
      && (id != k && id in s.operations && !IsTerminal(s.operations[id].status) ==> KeptOrFlushed(s, t, id))
      && (id in t.operations ==> id in s.operations)
  {
    if k in s.operations && !IsTerminal(s.operations[k].status) && ValidRecord(Apply(s.operations[k], goal, now)) {
      MoveEvolves(s, limits, k, Apply(s.operations[k], goal, now), now, outcome, id);
    }
  }

  lemma MoveEvolves(s: Store, limits: Limits, k: string, moved: Record, now: nat, outcome: WriteOutcome, id: string)
    requires StoreInv(s, limits) && Movable(s, k, moved)
    ensures var t := Move(s, limits, k, moved, now, outcome).0;
      && Evolves(s, t, limits, id, now)
      && (id != k && id in s.operations && !IsTerminal(s.operations[id].status) ==> KeptOrFlushed(s, t, id))
      && (id in t.operations ==> id in s.operations)
  {
  }

  /** Where the transitioned record can be afterwards, by what the call returns. */
  lemma TransitionMoves(s: Store, limits: Limits, k: string, goal: Goal, now: nat, outcome: WriteOutcome)
    requires StoreInv(s, limits) && k in s.operations && !IsTerminal(s.operations[k].status)
    ensures var (t, r) := Transition(s, limits, k, goal, now, outcome);
      && k in t.operations
      && (r.Moved? ==> Shows(t.operations, k, goal) && k !in t.deferred)
      && (|| (Shows(t.operations, k, goal) && k !in t.deferred)
          || (t.operations[k] == s.operations[k] && k in t.deferred && t.deferred[k].status == goal.status)
          || (t == s && r == Refused))
  {
  }

  lemma FreshReserveAnswers(s: Store, limits: Limits, request: Record, now: nat, outcome: WriteOutcome)
    requires request.id !in s.operations
    ensures var (t, r) := Reserve(s, limits, request, now, outcome);
      !r.Existing? && !r.SettlementPending? && (r.Reserved? ==> request.id in t.operations)
  {
  }

  /** What a transition of `k` does to the store as a whole. */
  ghost predicate Transitioned(s: Store, t: Store, limits: Limits, k: string, goal: Goal, now: nat) {
    && StoreInv(t, limits)
    && (forall id :: id in s.operations || id in t.operations ==>
          && id in s.operations
          && Evolves(s, t, limits, id, now)
          && (id != k && !IsTerminal(s.operations[id].status) ==> KeptOrFlushed(s, t, id)))
    && (k in s.operations && !IsTerminal(s.operations[k].status) ==> k in t.operations && Moves(s, t, k, goal))
  }

  /** The goal is reached, or waits to be written, or was refused. */
  predicate Moves(s: Store, t: Store, k: string, goal: Goal)
    requires k in s.operations && k in t.operations
  {
    || (Shows(t.operations, k, goal) && k !in t.deferred)
    || (t.operations[k] == s.operations[k] && k in t.deferred && t.deferred[k].status == goal.status)
    || t == s
  }

  lemma TransitionTransits(s: Store, limits: Limits, k: string, goal: Goal, now: nat, outcome: WriteOutcome)
    requires StoreInv(s, limits)
    ensures var (t, r) := Transition(s, limits, k, goal, now, outcome);
      Transitioned(s, t, limits, k, goal, now) && (r.Moved? ==> Shows(t.operations, k, goal) && k !in t.deferred)
  {
    var t := Transition(s, limits, k, goal, now, outcome).0;
    TransitionKeepsInv(s, limits, k, goal, now, outcome);
    forall id | id in s.operations || id in t.operations
      ensures id in s.operations && Evolves(s, t, limits, id, now)
      ensures id != k && !IsTerminal(s.operations[id].status) ==> KeptOrFlushed(s, t, id)
    {
      TransitionEvolves(s, limits, k, goal, now, outcome, id);
    }
    if k in s.operations && !IsTerminal(s.operations[k].status) {
      TransitionMoves(s, limits, k, goal, now, outcome);
    }
    if k in s.deferred {
      assert Shadows(s.operations, s.deferred[k]);
    }
  }

  /** A deferred settlement never takes a record back: only a still pending one
      can be moved to running. */
  predicate Onward(s: Store, id: string) {
    id in s.deferred && id in s.operations ==>
      && !s.deferred[id].status.Pending?
      && (s.deferred[id].status.Running? ==> s.operations[id].status.Pending?)
  }

  lemma TransitionStaysOnward(s: Store, t: Store, limits: Limits, k: string, goal: Goal, now: nat, id: string)
    requires Transitioned(s, t, limits, k, goal, now) && Onward(s, id)
    requires !goal.status.Pending?
    requires k in s.operations && !IsTerminal(s.operations[k].status) && goal.status.Running? ==>
        s.operations[k].status.Pending?
    ensures Onward(t, id)
  {
    if id in t.deferred && id in t.operations {
      assert Shadows(t.operations, t.deferred[id]);
      assert Evolves(s, t, limits, id, now);
      if id != k { assert KeptOrFlushed(s, t, id); }
    }
  }

  lemma ReplayStaysOnward(s: Store, t: Store, limits: Limits, request: Record, now: nat, id: string)
    requires Replayed(s, t, limits, request, now) && Onward(s, id)
    ensures Onward(t, id)
  {
    if id in t.deferred && id in t.operations {
      assert Shadows(t.operations, t.deferred[id]);
      assert Evolves(s, t, limits, id, now);
    }
  }

  predicate Waits(s: Store, id: string) {
    id in s.operations && s.operations[id].status.RecoveryRequired?
  }

  /** A record that waits for recovery leaves that state only to end. */
  lemma ReplayKeepsWaiting(s: Store, t: Store, limits: Limits, request: Record, now: nat, id: string)
    requires Replayed(s, t, limits, request, now) && StoreInv(s, limits) && Onward(s, id) && Waits(s, id)
    ensures id in t.operations && !IsTerminal(t.operations[id].status) ==> Waits(t, id)
  {
    assert KeptOrFlushed(s, t, id);
  }

  lemma TransitionKeepsWaiting(s: Store, t: Store, limits: Limits, k: string, goal: Goal, now: nat, id: string)
    requires Transitioned(s, t, limits, k, goal, now) && StoreInv(s, limits) && Onward(s, id) && Waits(s, id)
    requires id == k ==> !goal.status.Pending? && !goal.status.Running?
    ensures id in t.operations && !IsTerminal(t.operations[id].status) ==> Waits(t, id)
  {
    if id != k { assert KeptOrFlushed(s, t, id); }
  }

  /** Start-up keeps a record that retention keeps, if it is finished or the journal's. */
  lemma RecoverKeeps(s: Store, limits: Limits, journalId: string, now: nat, outcome: WriteOutcome, id: string)
    requires id in s.operations && s.operations[id].id == id && !Expired(s.operations[id], now, limits.retention)
    ensures var t := Recover(s, limits, journalId, now, outcome).0;
      id in t.operations && t.operations[id].id == id
      && (|| t.operations[id] == s.operations[id]
          || (!IsTerminal(s.operations[id].status) && (journalId == "" || id != journalId))
          || !IsTerminal(t.operations[id].status))
  {
  }

  lemma StartupKeeps(file: Records, limits: Limits, journalId: string, now: nat, outcome: WriteOutcome, later: nat,
                     retry: WriteOutcome, id: string)
    requires WellKeyed(file) && id in file
    requires !Expired(file[id], now, limits.retention) && !Expired(file[id], later, limits.retention)
    requires IsTerminal(file[id].status) || (journalId != "" && id == journalId)
    ensures id in Startup(file, limits, journalId, now, outcome, later, retry).0.operations
  {
    var s0 := Store(file, map[], file);
    RecoverKeeps(s0, limits, journalId, now, outcome, id);
    RecoverKeeps(Recover(s0, limits, journalId, now, outcome).0, limits, journalId, later, retry, id);
  }
}
