/** The space a reset needs, in checked 64-bit arithmetic. */
module Space {
  import opened Lifecycle

  const MAX_UINT64: nat := 0xFFFF_FFFF_FFFF_FFFF
  const DISK_RESERVE: nat := 10 * 1024 * 1024 * 1024

  type uint64 = n: nat | n <= MAX_UINT64

  function Sum(values: seq<uint64>): nat {
    if values == [] then 0 else Sum(values[..|values| - 1]) + values[|values| - 1] as nat
  }

  lemma {:induction false} SumOfPrefix(values: seq<uint64>, n: nat)
    requires n <= |values|
    ensures Sum(values[..n]) <= Sum(values)
    decreases |values|
  {
    if n < |values| {
      SumOfPrefix(values[..|values| - 1], n);
      assert values[..|values| - 1][..n] == values[..n];
    } else {
      assert values[..n] == values;
    }
  }

  /** The checked sum fails exactly when the true sum does not fit. */
  method CheckedSum(values: seq<uint64>) returns (r: Option<uint64>)
    ensures r.None? <==> Sum(values) > MAX_UINT64
    ensures r.Some? ==> r.value == Sum(values)
  {
    var total: uint64 := 0;
    for i := 0 to |values|
      invariant total == Sum(values[..i])
    {
      assert values[..i + 1][..i] == values[..i];
      if values[i] > MAX_UINT64 - total {
        SumOfPrefix(values, i + 1);
        return None;
      }
      total := total + values[i];
    }
    assert values[..|values|] == values;
    return Some(total);
  }

  // A missing bound is not a bound of zero.
  datatype Budget = Budget(
    candidate: Option<uint64>,
    backup: Option<uint64>,
    recovery: Option<uint64>,
    temporary: Option<uint64>,
    newFiles: Option<uint64>,
    inodeReserve: Option<uint64>)

  datatype Observation = Observation(bytes: Option<uint64>, inodes: Option<uint64>)

  datatype Verdict = Enough | Incomplete | Overflow | Unobserved | ShortOfBytes | ShortOfInodes

  predicate Complete(b: Budget) {
    b.candidate.Some? && b.backup.Some? && b.recovery.Some? && b.temporary.Some? && b.newFiles.Some?
    && b.inodeReserve.Some?
  }

  function BytesNeeded(b: Budget): nat
    requires Complete(b)
  {
    b.candidate.value + b.backup.value + b.recovery.value + b.temporary.value + DISK_RESERVE
  }

  function InodesNeeded(b: Budget): nat
    requires Complete(b)
  {
    b.newFiles.value + b.inodeReserve.value
  }

  /** The requirement can be computed: nothing is missing and nothing overflows. */
  predicate Computable(b: Budget) {
    Complete(b) && BytesNeeded(b) <= MAX_UINT64 && InodesNeeded(b) <= MAX_UINT64
  }

  function VerdictOn(b: Budget, seen: Observation): Verdict {
    if !Complete(b) then Incomplete
    else if !Computable(b) then Overflow
    else if seen.bytes.None? || seen.inodes.None? then Unobserved
    else if seen.bytes.value < BytesNeeded(b) then ShortOfBytes
    else if seen.inodes.value < InodesNeeded(b) then ShortOfInodes
    else Enough
  }

  method RequiredSpace(b: Budget) returns (complete: bool, bytes: Option<uint64>, inodes: Option<uint64>)
    ensures complete == Complete(b)
    ensures bytes.Some? && inodes.Some? <==> Computable(b)
    ensures Computable(b) ==> bytes.value == BytesNeeded(b) && inodes.value == InodesNeeded(b)
  {
    if
      b.candidate.None? || b.backup.None? || b.recovery.None? || b.temporary.None? || b.newFiles.None?
      || b.inodeReserve.None?
    {
      return false, None, None;
    }
    complete := true;
    var parts: seq<uint64> := [b.candidate.value, b.backup.value, b.recovery.value, b.temporary.value, DISK_RESERVE];
    SumOfFive(parts);
    bytes := CheckedSum(parts);
    var counts: seq<uint64> := [b.newFiles.value, b.inodeReserve.value];
    SumOfTwo(counts);
    inodes := CheckedSum(counts);
  }

  lemma SumOfTwo(v: seq<uint64>)
    requires |v| == 2
    ensures Sum(v) == v[0] as nat + v[1] as nat
  {
    assert v[..1][..0] == [];
    assert Sum(v[..1]) == Sum(v[..1][..0]) + v[0];
  }

  lemma SumOfFive(v: seq<uint64>)
    requires |v| == 5
    ensures Sum(v) == v[0] as nat + v[1] as nat + v[2] as nat + v[3] as nat + v[4] as nat
  {
    SumOfTwo(v[..2]);
    assert v[..3][..2] == v[..2] && v[..4][..3] == v[..3] && v[..5][..4] == v[..4] && v[..5] == v;
    assert Sum(v[..3]) == Sum(v[..2]) + v[2];
    assert Sum(v[..4]) == Sum(v[..3]) + v[3];
  }

  method VerifyBudget(b: Budget, seen: Observation) returns (v: Verdict)
    ensures v == VerdictOn(b, seen)
  {
    var complete, bytes, inodes := RequiredSpace(b);
    if !complete { return Incomplete; }
    if bytes.None? || inodes.None? { return Overflow; }
    if seen.bytes.None? || seen.inodes.None? { return Unobserved; }
    if seen.bytes.value < bytes.value { return ShortOfBytes; }
    if seen.inodes.value < inodes.value { return ShortOfInodes; }
    return Enough;
  }

  /** What remains to be allocated after backup and pull. */
  function Remaining(recovery: Option<uint64>, unfinished: Option<uint64>, files: Option<uint64>,
                     reserve: Option<uint64>): Budget {
    Budget(Some(0), Some(0), recovery, unfinished, files, reserve)
  }

  /** Once a plan's budget is accepted, a preflight within its caps can fail the
      remaining-space check only for a missing observation or a real shortage:
      never for overflow, and never for a gap in the budget. */
  lemma CapsExcludeOverflow(plan: Budget, unfinished: uint64, files: uint64, seen: Observation)
    requires Computable(plan) && unfinished <= plan.temporary.value && files <= plan.newFiles.value
    ensures var rest := Remaining(plan.recovery, Some(unfinished), Some(files), plan.inodeReserve);
      && Computable(rest)
      && (VerdictOn(rest, seen) == Enough <==>
            && seen.bytes.Some? && seen.inodes.Some?
            && seen.bytes.value >= plan.recovery.value + unfinished + DISK_RESERVE
            && seen.inodes.value >= files + plan.inodeReserve.value)
      && VerdictOn(rest, seen) != Overflow && VerdictOn(rest, seen) != Incomplete
  {
  }
}
