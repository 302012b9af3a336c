/** The store as the deployer keeps it: maps replaced in memory only when the
    replacement of the file became visible. Each method is one critical section
    and does exactly what the corresponding step of OperationStore says. */
module DurableStore {
  import opened Lifecycle
  import Spec = OperationStore

  method PruneExpired(operations: Spec.Records, now: nat, retention: nat) returns (kept: Spec.Records, changed: bool)
    ensures kept == Spec.Prune(operations, now, retention)
    ensures changed <==> kept != operations
  {
    kept, changed := operations, false;
    var pending := operations.Keys;
    while pending != {}
      invariant pending <= operations.Keys
      invariant forall id :: id in kept <==>
        id in operations && (id in pending || !Spec.Expired(operations[id], now, retention))
      invariant forall id :: id in kept ==> kept[id] == operations[id]
      invariant changed <==> exists id :: id in operations && id !in kept
    {
      var id :| id in pending;
      pending := pending - {id};
      if Spec.Expired(operations[id], now, retention) {
        kept := kept - {id};
        changed := true;
      }
    }
    assert changed ==> kept.Keys != operations.Keys;
  }

  /** One unfinished record that recovery would make invalid stops it. */
  lemma OneInvalid(s: Spec.Store, limits: Spec.Limits, journalId: string, now: nat, outcome: WriteOutcome, id: string)
    requires var kept := Spec.Prune(s.operations, now, limits.retention);
      id in kept && !IsTerminal(kept[id].status) && !Spec.ValidRecord(Spec.Recovered(kept[id], journalId, now))
    ensures Spec.Recover(s, limits, journalId, now, outcome) == (s, false)
  {
    var kept := Spec.Prune(s.operations, now, limits.retention);
    assert Spec.RecoveredAll(kept, journalId, now)[id] == Spec.Recovered(kept[id], journalId, now);
  }

  /** Otherwise it settles every record, unless there is nothing to settle. */
  lemma NoneInvalid(s: Spec.Store, limits: Spec.Limits, journalId: string, now: nat, outcome: WriteOutcome)
    requires var kept := Spec.Prune(s.operations, now, limits.retention);
      forall id :: id in kept && !IsTerminal(kept[id].status) ==>
        Spec.ValidRecord(Spec.Recovered(kept[id], journalId, now))
    ensures var kept := Spec.Prune(s.operations, now, limits.retention);
      Spec.Recover(s, limits, journalId, now, outcome) ==
        if kept == s.operations && (forall id :: id in kept ==> IsTerminal(kept[id].status)) then (s, true)
        else (Spec.Install(s, Spec.RecoveredAll(kept, journalId, now), outcome), outcome.Persisted?)
  {
  }

  class DurableOperationStore {
    const limits: Spec.Limits
    var operations: Spec.Records
    var deferredTransitions: Spec.Records
    var file: Spec.Records // what is visible at the store's path

    ghost function State(): Spec.Store
      reads this
    {
      Spec.Store(operations, deferredTransitions, file)
    }

    constructor (limits: Spec.Limits, contents: Spec.Records)
      ensures this.limits == limits
      ensures State() == Spec.Store(contents, map[], contents)
    {
      this.limits := limits;
      operations, deferredTransitions, file := contents, map[], contents;
    }

    method PersistAndInstall(next: Spec.Records, outcome: WriteOutcome) returns (ok: bool)
      modifies `operations, `file
      ensures State() == Spec.Install(old(State()), next, outcome)
      ensures ok <==> outcome.Persisted?
    {
      if Visible(outcome) {
        file := next;
        operations := next;
      }
      ok := outcome.Persisted?;
    }

    method Reserve(request: Spec.Record, now: nat, outcome: WriteOutcome) returns (r: Spec.ReserveResult)
      modifies this
      ensures (State(), r) == Spec.Reserve(old(State()), limits, request, now, outcome)
    {
      if request.id in operations {
        var existing := operations[request.id];
        if !Spec.SameRequest(existing, request) {
          return Spec.Conflict;
        }
        if request.id in deferredTransitions {
          var settlement := deferredTransitions[request.id];
          var ok := PersistAndInstall(operations[request.id := settlement], outcome);
          if !ok && operations[request.id] != settlement {
            return Spec.SettlementPending(existing);
          }
          deferredTransitions := deferredTransitions - {request.id};
          return Spec.Existing(settlement);
        }
        return Spec.Existing(existing);
      }
      var record := Spec.Stamped(request, now);
      if !Spec.ValidRecord(record) {
        return Spec.Invalid;
      }
      var next, _ := PruneExpired(operations, now, limits.retention);
      if |next| >= limits.maxEntries {
        return Spec.Full;
      }
      var ok := PersistAndInstall(next[record.id := record], outcome);
      r := if ok then Spec.Reserved(record) else Spec.PersistFailed;
    }

    method Transition(id: string, goal: Spec.Goal, now: nat, outcome: WriteOutcome) returns (r: Spec.TransitionResult)
      modifies this
      ensures (State(), r) == Spec.Transition(old(State()), limits, id, goal, now, outcome)
    {
      if id !in operations {
        return Spec.Missing;
      }
      var record := operations[id];
      if IsTerminal(record.status) {
        return if Spec.Shows(operations, id, goal) then Spec.Moved(record) else Spec.AlreadyTerminal;
      }
      record := record.(status := goal.status, http := goal.http, message := goal.message, updated := now);
      if !Spec.ValidRecord(record) {
        return Spec.Refused;
      }
      var next, _ := PruneExpired(operations, now, limits.retention);
      var ok := PersistAndInstall(next[id := record], outcome);
      if !ok && (id !in operations || operations[id] != record) {
        deferredTransitions := deferredTransitions[id := record];
      } else {
        deferredTransitions := deferredTransitions - {id};
      }
      r := if ok then Spec.Moved(record) else Spec.WriteFailed;
    }

    method Lookup(id: string) returns (r: Option<Spec.Record>)
      ensures r == if id in operations then Some(operations[id]) else None
    {
      r := if id in operations then Some(operations[id]) else None;
    }

    method Recover(journalId: string, now: nat, outcome: WriteOutcome) returns (ok: bool)
      modifies this
      ensures (State(), ok) == Spec.Recover(old(State()), limits, journalId, now, outcome)
    {
      var kept, changed := PruneExpired(operations, now, limits.retention);
      var next := kept;
      var pending := kept.Keys;
      while pending != {}
        invariant pending <= kept.Keys && next.Keys == kept.Keys
        invariant forall id :: id in pending ==> next[id] == kept[id]
        invariant forall id :: id in kept && id !in pending ==>
          && next[id] == Spec.Recovered(kept[id], journalId, now)
          && (IsTerminal(kept[id].status) || Spec.ValidRecord(next[id]))
        invariant changed <==>
            kept != operations || exists id :: id in kept && id !in pending && !IsTerminal(kept[id].status)
        invariant State() == old(State())
      {
        var id :| id in pending;
        pending := pending - {id};
        if !IsTerminal(kept[id].status) {
          var record := Spec.Recovered(kept[id], journalId, now);
          if !Spec.ValidRecord(record) {
            OneInvalid(State(), limits, journalId, now, outcome, id);
            return false;
          }
          next := next[id := record];
          changed := true;
        }
      }
      assert next == Spec.RecoveredAll(kept, journalId, now);
      NoneInvalid(State(), limits, journalId, now, outcome);
      if !changed {
        return true;
      }
      ok := PersistAndInstall(next, outcome);
    }
  }

  datatype OpenResult =
    | Opened(store: DurableOperationStore) | Refused | TooMany | InvalidRecord | Duplicate | PruneFailed

  predicate Distinct(document: seq<Spec.Record>) {
    forall i, j :: 0 <= i < j < |document| ==> document[i].id != document[j].id
  }

  predicate AllValid(document: seq<Spec.Record>) {
    forall record :: record in document ==> Spec.ValidRecord(record)
  }

  predicate Readable(document: seq<Spec.Record>) {
    AllValid(document) && Distinct(document)
  }

  function Indexed(document: seq<Spec.Record>): Spec.Records {
    if document == [] then map[]
    else Indexed(document[..|document| - 1])[document[|document| - 1].id := document[|document| - 1]]
  }

  lemma {:induction false} IndexedOnlyHolds(document: seq<Spec.Record>, id: string)
    requires id in Indexed(document)
    ensures Indexed(document)[id] in document && Indexed(document)[id].id == id
  {
    var last := document[|document| - 1];
    if id != last.id {
      IndexedOnlyHolds(document[..|document| - 1], id);
    }
  }

  /** Indexing a document with distinct ids loses no record and adds none. */
  lemma {:induction false} IndexedHolds(document: seq<Spec.Record>, i: nat)
    requires Distinct(document) && i < |document|
    ensures document[i].id in Indexed(document) && Indexed(document)[document[i].id] == document[i]
  {
    var rest := document[..|document| - 1];
    if i < |rest| {
      assert rest[i] == document[i];
      IndexedHolds(rest, i);
    }
  }

  lemma {:induction false} IndexedSize(document: seq<Spec.Record>)
    ensures |Indexed(document)| <= |document|
  {
    if document != [] {
      IndexedSize(document[..|document| - 1]);
    }
  }

  lemma IndexedIsWellKeyed(document: seq<Spec.Record>)
    requires AllValid(document)
    ensures Spec.WellKeyed(Indexed(document))
  {
    forall id | id in Indexed(document)
      ensures Indexed(document)[id].id == id && Spec.ValidRecord(Indexed(document)[id])
    {
      IndexedOnlyHolds(document, id);
    }
  }

  method Index(document: seq<Spec.Record>) returns (operations: Spec.Records, fault: Option<OpenResult>)
    ensures fault.None? <==> Readable(document)
    ensures fault.None? ==> operations == Indexed(document)
    ensures fault.Some? ==> fault.value.InvalidRecord? || fault.value.Duplicate?
  {
    operations, fault := map[], None;
    for i := 0 to |document|
      invariant Readable(document[..i])
      invariant operations == Indexed(document[..i])
    {
      var record := document[i];
      if !Spec.ValidRecord(record) {
        return operations, Some(InvalidRecord);
      }
      if record.id in operations {
        IndexedOnlyHolds(document[..i], record.id);
        return operations, Some(Duplicate);
      }
      forall j | 0 <= j < i ensures document[j].id != record.id {
        IndexedHolds(document[..i], j);
        assert document[..i][j] == document[j];
      }
      operations := operations[record.id := record];
      assert document[..i + 1][..i] == document[..i];
      assert document[..i + 1] == document[..i] + [record];
    }
    assert document[..|document|] == document;
  }

  /** Opening refuses a document it could not have written, and otherwise holds
      the records whose retention has not passed, in memory as on disk. */
  method Open(document: seq<Spec.Record>, limits: Spec.Limits, now: nat, outcome: WriteOutcome) returns (r: OpenResult)
    ensures limits.maxEntries == 0 || limits.retention == 0 ==> r.Refused?
    ensures r.Opened? ==> fresh(r.store) && Readable(document) && |document| <= limits.maxEntries
    ensures r.Opened? ==> r.store.limits == limits && Spec.StoreInv(r.store.State(), limits)
    ensures r.Opened? ==>
      && r.store.operations == Spec.Prune(Indexed(document), now, limits.retention)
      && r.store.deferredTransitions == map[]
    ensures limits.maxEntries > 0 && limits.retention > 0 && |document| <= limits.maxEntries && Readable(document) ==>
            r.Opened? || (r.PruneFailed? && !outcome.Persisted?)
  {
    if limits.maxEntries == 0 || limits.retention == 0 {
      return Refused;
    }
    if |document| > limits.maxEntries {
      return TooMany;
    }
    var operations, fault := Index(document);
    if fault.Some? {
      return fault.value;
    }
    IndexedSize(document);
    IndexedIsWellKeyed(document);
    Spec.PruneShrinks(operations, now, limits.retention);
    var pruned, changed := PruneExpired(operations, now, limits.retention);
    if changed && !outcome.Persisted? {
      return PruneFailed;
    }
    var store := new DurableOperationStore(limits, pruned);
    r := Opened(store);
  }
}
