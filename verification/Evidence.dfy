/** The evidence of a destructive reset: a hash chain of phase attestations, and
    the plan, preflight and publication receipt that must agree with it. */
module Evidence {
  import opened Lifecycle
  import Space

  // Instants are nanoseconds; documents carry whole seconds of the Unix clock.
  const SECOND: nat := 1_000_000_000
  const PREFLIGHT_MAX_AGE: nat := 30 * SECOND

  function At(unix: int): int {
    unix * SECOND
  }

  function Unix(t: int): int {
    t / SECOND
  }

  datatype Snapshot = Snapshot(
    observed: int,
    server: string,
    operation: string,
    fingerprint: string,
    state: string,
    revision: string,
    freezeHeld: bool,
    freezeReceipt: string)

  datatype Attestation = Attestation(
    phase: string,
    previous: string,
    started: int,
    completed: int,
    snapshot: Snapshot,
    bytes: Space.uint64,
    inodes: Space.uint64,
    sha: string)

  datatype Header = Header(accepted: int, planSha: string, preflightSha: string, fingerprint: string, request: string)

  datatype Journal = Journal(version: int, header: Header, attestations: seq<Attestation>)

  /** SHA-256 over the header and an attestation without its own digest. */
  type Hash = (Header, Attestation) -> string

  function Unsigned(a: Attestation): Attestation {
    a.(sha := "")
  }

  const PHASES := ["prepared", "before-journal", "before-down"]

  predicate IsSha(s: string) {
    IsHex(s, 64)
  }

  const MAX_INT64_TEXT := "9223372036854775807"

  /** A positive 64-bit decimal in its shortest form. */
  predicate IsRevision(s: string) {
    && s != "" && '1' <= s[0] <= '9' && (forall i :: 0 <= i < |s| ==> '0' <= s[i] <= '9')
    && (|s| < |MAX_INT64_TEXT| || (|s| == |MAX_INT64_TEXT| && AtMost(s, MAX_INT64_TEXT)))
  }

  predicate AtMost(a: string, b: string)
    requires |a| == |b|
  {
    a == "" || a[0] < b[0] || (a[0] == b[0] && AtMost(a[1..], b[1..]))
  }

  // -------------------------------------------------------------- The chain

  /** One attestation by itself, at its place in the chain. */
  predicate AttestationOk(header: Header, operation: string, a: Attestation, i: nat, hash: Hash)
    requires i < 3
  {
    var s := a.snapshot;
    && a.phase == PHASES[i]
    && a.started <= a.completed && a.started <= s.observed <= a.completed
    && a.completed - a.started < PREFLIGHT_MAX_AGE
    && s.server == "pep" && s.operation == operation && s.fingerprint == header.fingerprint
    && s.state == "VERIFYING" && IsRevision(s.revision) && s.freezeHeld && IsSha(s.freezeReceipt)
    && a.bytes >= Space.DISK_RESERVE && a.inodes != 0
    && IsSha(a.sha) && a.sha == hash(header, Unsigned(a))
  }

  /** How an attestation continues what comes before it. */
  predicate Continues(header: Header, attestations: seq<Attestation>, i: nat)
    requires i < |attestations|
  {
    var a := attestations[i];
    if i == 0 then a.previous == "" && At(header.accepted) <= a.started
    else
      var before := attestations[i - 1];
      && a.previous == before.sha && before.completed <= a.started
      && a.snapshot.revision == before.snapshot.revision && a.snapshot.freezeReceipt == before.snapshot.freezeReceipt
  }

  predicate ChainOk(journal: Journal, operation: string, hash: Hash) {
    |journal.attestations| <= 3 &&
    forall i :: 0 <= i < |journal.attestations| ==>
      AttestationOk(journal.header, operation, journal.attestations[i], i, hash)
      && Continues(journal.header, journal.attestations, i)
  }

  /** `fingerprint` and `request` are those of the target that is to be reset. */
  predicate JournalOk(journal: Journal, operation: string, fingerprint: string, request: string, hash: Hash) {
    && journal.version == 1 && journal.header.accepted > 0 && IsHex(operation, 32)
    && journal.header.planSha != "" && journal.header.preflightSha != ""
    && journal.header.fingerprint == fingerprint && journal.header.request == request
    && 0 < |journal.attestations| <= 3
    && ChainOk(journal, operation, hash)
  }

  /** The validator's loop, which carries the last digest, completion, revision
      and freeze receipt from one attestation to the next. */
  method ValidateJournal(journal: Journal, operation: string, fingerprint: string, request: string,
                         hash: Hash) returns (ok: bool)
    ensures ok <==> JournalOk(journal, operation, fingerprint, request, hash)
  {
    var h := journal.header;
    if journal.version != 1 || h.accepted <= 0 || !IsHex(operation, 32) || h.planSha == "" || h.preflightSha == ""
      || h.fingerprint != fingerprint || h.request != request
      || |journal.attestations| == 0 || |journal.attestations| > 3 {
      return false;
    }
    var previous, completion := "", At(h.accepted);
    var revision, freeze := "", "";
    for i := 0 to |journal.attestations|
      invariant forall j :: 0 <= j < i ==>
        AttestationOk(h, operation, journal.attestations[j], j, hash) && Continues(h, journal.attestations, j)
      invariant if i == 0 then previous == "" && completion == At(h.accepted) else
        var before := journal.attestations[i - 1];
        previous == before.sha && completion == before.completed
        && revision == before.snapshot.revision && freeze == before.snapshot.freezeReceipt
    {
      var a := journal.attestations[i];
      var s := a.snapshot;
      if a.previous != previous || a.started < completion
        || (i > 0 && (s.revision != revision || s.freezeReceipt != freeze))
        || !AttestationOk(h, operation, a, i, hash) {
        return false;
      }
      previous, completion := a.sha, a.completed;
      revision, freeze := s.revision, s.freezeReceipt;
    }
    return true;
  }

  function Prefix(journal: Journal, n: nat): Journal
    requires n <= |journal.attestations|
  {
    journal.(attestations := journal.attestations[..n])
  }

  /** Every prefix of an accepted chain was accepted when it was the whole chain. */
  lemma PrefixesAreAccepted(journal: Journal, operation: string, fingerprint: string, request: string, hash: Hash,
                            n: nat)
    requires JournalOk(journal, operation, fingerprint, request, hash) && 0 < n <= |journal.attestations|
    ensures JournalOk(Prefix(journal, n), operation, fingerprint, request, hash)
  {
    var p := Prefix(journal, n);
    forall i | 0 <= i < n
      ensures AttestationOk(p.header, operation, p.attestations[i], i, hash) && Continues(p.header, p.attestations, i)
    {
      assert p.attestations[i] == journal.attestations[i];
      assert Continues(journal.header, journal.attestations, i);
    }
  }

  ghost predicate Injective(hash: Hash) {
    forall h, a, g, b :: hash(h, a) == hash(g, b) ==> h == g && a == b
  }

  lemma SameShaSameAttestation(j: Journal, k: Journal, operation: string, other: string, hash: Hash, m: nat, n: nat)
    requires Injective(hash) && ChainOk(j, operation, hash) && ChainOk(k, other, hash)
    requires m < |j.attestations| && n < |k.attestations| && j.attestations[m].sha == k.attestations[n].sha
    ensures j.header == k.header && j.attestations[m] == k.attestations[n] && m == n
  {
    var a, b := j.attestations[m], k.attestations[n];
    assert AttestationOk(j.header, operation, a, m, hash) && AttestationOk(k.header, other, b, n, hash);
    assert hash(j.header, Unsigned(a)) == hash(k.header, Unsigned(b));
    assert Unsigned(a) == Unsigned(b);
    assert a == Unsigned(a).(sha := a.sha) && b == Unsigned(b).(sha := b.sha);
    PhasesDiffer(m, n);
  }

  lemma PhasesDiffer(m: nat, n: nat)
    requires m < 3 && n < 3 && PHASES[m] == PHASES[n]
    ensures m == n
  {
    assert |PHASES[0]| == 8 && |PHASES[1]| == 14 && |PHASES[2]| == 11;
  }

  /** Under an injective hash one digest determines the chain up to it. */
  lemma {:induction false} ShaDeterminesChain(j: Journal, k: Journal, operation: string, other: string, hash: Hash,
                                              m: nat, n: nat)
    requires Injective(hash) && ChainOk(j, operation, hash) && ChainOk(k, other, hash)
    requires m < |j.attestations| && n < |k.attestations| && j.attestations[m].sha == k.attestations[n].sha
    ensures m == n && j.header == k.header && j.attestations[..m + 1] == k.attestations[..n + 1]
    decreases m
  {
    SameShaSameAttestation(j, k, operation, other, hash, m, n);
    if m > 0 {
      assert Continues(j.header, j.attestations, m) && Continues(k.header, k.attestations, n);
      ShaDeterminesChain(j, k, operation, other, hash, m - 1, n - 1);
      assert j.attestations[..m + 1] == j.attestations[..m] + [j.attestations[m]];
      assert k.attestations[..m + 1] == k.attestations[..m] + [k.attestations[m]];
    }
  }

  // ------------------------------------------------------------ The timeline

  datatype Plan = Plan(
    operation: string,
    fingerprint: string,
    freezeReceipt: string,
    windowOpens: int,
    cutoff: int,
    deadline: int,
    budget: Space.Budget)

  datatype Preflight = Preflight(
    operation: string,
    fingerprint: string,
    revision: string,
    freezeReceipt: string,
    observed: int,
    expires: int,
    retainUntil: int,
    containers: seq<string>,
    unfinished: Option<Space.uint64>,
    remainingFiles: Option<Space.uint64>,
    space: Space.Observation)

  datatype Receipt = Receipt(operation: string, fingerprint: string, revision: string, issued: int, expires: int,
                             execution: Journal)

  /** The reset's durable record: when it was reserved, in nanoseconds. */
  datatype Reservation = Reservation(operation: string, request: string, created: nat)

  predicate PlanOk(plan: Plan, now: int) {
    && 0 < plan.windowOpens < plan.cutoff < plan.deadline
    && At(plan.windowOpens) <= now < At(plan.cutoff)
    && Space.Computable(plan.budget)
  }

  predicate AllDifferent(ids: seq<string>) {
    forall i, j :: 0 <= i < j < |ids| ==> ids[i] != ids[j]
  }

  /** The loop that fills the set of container ids seen. */
  method DistinctContainers(ids: seq<string>) returns (ok: bool)
    ensures ok <==> |ids| == 5 && AllDifferent(ids) && forall i :: 0 <= i < |ids| ==> IsSha(ids[i])
  {
    if |ids| != 5 { return false; }
    var seen: set<string> := {};
    for i := 0 to |ids|
      invariant seen == set j | 0 <= j < i :: ids[j]
      invariant AllDifferent(ids[..i]) && forall j :: 0 <= j < i ==> IsSha(ids[j])
    {
      if !IsSha(ids[i]) || ids[i] in seen { return false; }
      seen := seen + {ids[i]};
      assert forall j :: 0 <= j < i ==> ids[..i][j] == ids[j];
    }
    assert ids[..|ids|] == ids;
    return true;
  }

  predicate PreflightOk(p: Preflight, plan: Plan, now: int) {
    && p.operation == plan.operation && p.fingerprint == plan.fingerprint && p.freezeReceipt == plan.freezeReceipt
    && IsRevision(p.revision)
    && plan.windowOpens <= p.observed && At(p.observed) <= now && now - At(p.observed) < PREFLIGHT_MAX_AGE
    && p.observed < p.expires && At(p.expires) - At(p.observed) <= PREFLIGHT_MAX_AGE && now < At(p.expires)
    && p.expires <= plan.cutoff && p.observed + 7 * 24 * 60 * 60 <= p.retainUntil
    && |p.containers| == 5 && AllDifferent(p.containers)
    && p.unfinished.Some? && p.remainingFiles.Some? && plan.budget.temporary.Some? && plan.budget.newFiles.Some?
    && p.unfinished.value <= plan.budget.temporary.value && p.remainingFiles.value <= plan.budget.newFiles.value
    && Space.VerdictOn(Space.Remaining(plan.budget.recovery, p.unfinished, p.remainingFiles, plan.budget.inodeReserve),
                       p.space) == Space.Enough
  }

  predicate ReceiptOk(r: Receipt, plan: Plan, p: Preflight, record: Reservation, request: string, now: int,
                      hash: Hash) {
    && r.operation == plan.operation && record.operation == plan.operation
    && r.fingerprint == plan.fingerprint && r.revision == p.revision
    && r.execution.header.accepted == Unix(record.created) && r.execution.header.request == record.request
    && |r.execution.attestations| == 3
    && JournalOk(r.execution, plan.operation, plan.fingerprint, request, hash)
    && var last := r.execution.attestations[2];
       && last.snapshot.revision == p.revision && last.snapshot.freezeReceipt == plan.freezeReceipt
       && Unix(last.completed) < plan.cutoff
       && last.completed <= At(r.issued) <= now
       && r.issued < r.expires <= r.issued + 30 && r.expires <= plan.deadline && Unix(now) < r.expires
  }

  /** All three documents as the reader accepts them, with the reservation's time
      as the time of admission. */
  predicate Accepted(r: Receipt, plan: Plan, p: Preflight, record: Reservation, request: string, now: int, hash: Hash) {
    PlanOk(plan, record.created) && PreflightOk(p, plan, record.created)
    && ReceiptOk(r, plan, p, record, request, now, hash)
  }

  lemma WholeSeconds(unix: int, t: int)
    ensures At(unix) <= t <==> unix <= Unix(t)
    ensures t < At(unix) <==> Unix(t) < unix
  {
  }

  /** An accepted receipt tells one consistent story: the window opens, the
      preflight is observed, the reset is accepted, the three phases follow one
      another, all before the destructive cutoff; then the receipt is issued, is
      still valid now, and expires before the recovery deadline. One publication
      revision and one freeze receipt hold throughout. */
  lemma AcceptedEvidenceIsOneTimeline(
    r: Receipt, plan: Plan, p: Preflight, record: Reservation, request: string, now: int, hash: Hash)
    requires Accepted(r, plan, p, record, request, now, hash)
    ensures var a := r.execution.attestations;
      && plan.windowOpens <= p.observed <= r.execution.header.accepted
      && At(r.execution.header.accepted) <= a[0].started <= a[0].completed <= a[1].started <= a[1].completed
           <= a[2].started <= a[2].completed < At(plan.cutoff)
      && a[2].completed <= At(r.issued) <= now < At(r.expires) <= At(plan.deadline)
      && (forall i :: 0 <= i < 3 ==>
            && a[i].snapshot.revision == p.revision
            && a[i].snapshot.freezeReceipt == plan.freezeReceipt == p.freezeReceipt)
  {
    var a := r.execution.attestations;
    var h := r.execution.header;
    assert Continues(h, a, 0) && Continues(h, a, 1) && Continues(h, a, 2);
    assert AttestationOk(h, plan.operation, a[0], 0, hash) && AttestationOk(h, plan.operation, a[1], 1, hash)
           && AttestationOk(h, plan.operation, a[2], 2, hash);
    WholeSeconds(p.observed, record.created);
    WholeSeconds(plan.cutoff, a[2].completed);
    WholeSeconds(r.expires, now);
  }

  /** A preflight under an accepted plan is never turned down for an overflow or
      a gap in the plan's budget: enough space means accepted arithmetic. */
  lemma PreflightSpaceIsReal(plan: Plan, p: Preflight, now: int)
    requires PlanOk(plan, now) && PreflightOk(p, plan, now)
    ensures p.space.bytes.Some? && p.space.inodes.Some?
    ensures p.space.bytes.value >= plan.budget.recovery.value + p.unfinished.value + Space.DISK_RESERVE
    ensures p.space.inodes.value >= p.remainingFiles.value + plan.budget.inodeReserve.value
  {
    Space.CapsExcludeOverflow(plan.budget, p.unfinished.value, p.remainingFiles.value, p.space);
  }
}
