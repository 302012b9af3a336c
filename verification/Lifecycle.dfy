/** The vocabulary shared by the durable store, the job table, the admission
    coordinator and the workers: what an operation is, the states it passes
    through, and what a caller can learn from an attempt to write a file. */
module Lifecycle {

  datatype Option<+T> = None | Some(value: T)

  datatype Kind = CreateKind | CloseKind | ResetKind

  datatype Status = Pending | Running | RecoveryRequired | Succeeded | Failed | Cancelled

  predicate IsTerminal(status: Status) {
    status.Succeeded? || status.Failed? || status.Cancelled?
  }

  /** The approved public templates. A message is stored as its template. */
  datatype Message =
    | NoMessage
    | RequestValidationFailed
    | DockerUnavailable
    | AlreadyInProgress
    | CreatePreparationFailed
    | ClosePreparationFailed
    | ResetPreparationFailed
    | RecoveryMessage
    | VerificationFailed
    | CancelledMessage
    | RestartInterrupted
    | CreateSucceeded
    | CloseSucceeded
    | ResetSucceeded

  /** A replacement of a file by rename either leaves the old contents, or makes
      the new contents visible and then fails to sync the directory, or succeeds. */
  datatype WriteOutcome = NotCommitted | CommittedUnsynced | Persisted

  predicate Visible(outcome: WriteOutcome) {
    !outcome.NotCommitted?
  }

  function SuccessMessage(kind: Kind): Message {
    match kind
    case CreateKind => CreateSucceeded
    case CloseKind => CloseSucceeded
    case ResetKind => ResetSucceeded
  }

  function PreparationFailureMessage(kind: Kind): Message {
    match kind
    case CreateKind => CreatePreparationFailed
    case CloseKind => ClosePreparationFailed
    case ResetKind => ResetPreparationFailed
  }

  predicate IsLowerHex(c: char) {
    '0' <= c <= '9' || 'a' <= c <= 'f'
  }

  /** A string of exactly `length` lowercase hexadecimal digits. */
  predicate IsHex(text: string, length: nat) {
    |text| == length && forall i :: 0 <= i < |text| ==> IsLowerHex(text[i])
  }

  predicate IsAlphanumeric(c: char) {
    '0' <= c <= '9' || 'a' <= c <= 'z' || 'A' <= c <= 'Z'
  }

  lemma {:induction false} SubsetSize<T>(small: set<T>, large: set<T>)
    requires small <= large
    ensures |small| <= |large|
  {
    if small != {} {
      var x :| x in small;
      SubsetSize(small - {x}, large - {x});
    }
  }
}
