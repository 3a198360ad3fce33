/**
 * The error values of the orchestrator. Service faults are a closed set of
 * kinds, so that every "tolerate or propagate" decision is a case split;
 * the orchestrator's own errors are the plain `errors.New` values it
 * returns, and `Wrapped` is an `fmt.Errorf("...: %w", cause)` whose cause
 * `errors.As` still finds.
 */
module Faults {
  import opened Wrappers

  /** A fault returned by the RDS or Secrets Manager API, or by a waiter. */
  datatype Fault =
    | InstanceNotFound        // types.DBInstanceNotFoundFault
    | SnapshotNotFound        // types.DBSnapshotNotFoundFault
    | InvalidState            // types.InvalidDBInstanceStateFault
    | ResourceExists          // Secrets Manager's ResourceExistsException
    | Api(code: string)       // any other smithy.APIError, by its error code
    | Other(message: string)  // an error that is not an API error (a waiter timeout, say)

  /** What `errors.As(err, &apiErr)` followed by `apiErr.ErrorCode()` yields. */
  function ApiCode(f: Fault): Option<string> {
    match f
    case InstanceNotFound => Some("DBInstanceNotFound")
    case SnapshotNotFound => Some("DBSnapshotNotFound")
    case InvalidState => Some("InvalidDBInstanceState")
    case ResourceExists => Some("ResourceExistsException")
    case Api(code) => Some(code)
    case Other(_) => None
  }

  /**
   * The step whose failure an error message names. Both available-waiters
   * report "waiting for the instance to be up and running", so the source's
   * messages do not tell `WaitingForSnapshot` from `WaitingForInstance`;
   * the model separates them only to name the waiter that failed.
   */
  datatype Step =
    | DescribingInstance     // "describing the DB instance"
    | DeletingInstance       // "deleting the DB instance"
    | WaitingForDeletion     // "waiting for the instance to be deleted"
    | DeletingSecret         // "deleting the master user password secret"
    | DescribingSnapshot     // "describing the DB snapshot"
    | RemovingSnapshot       // "removing the corresponding DB snapshot"
    | CreatingSnapshot       // "creating the DB snapshot"
    | WaitingForSnapshot     // the snapshot-available waiter; see below
    | Restoring              // "restoring the db instance"
    | WaitingForInstance     // the instance-available waiter
    | GeneratingPassword     // "generating the master user password"
    | CreatingPassword       // "creating a new master user password"
    | GettingPassword        // "getting the master user password"
    | Modifying              // "modifying the DB instance"

  datatype Error =
    | Wrapped(step: Step, cause: Fault)
    | NotCreatedByCavalier      // "the specified DB instance wasn't created by the cavalier"
    | NotExactlyOneInstance     // "zero DB instance or more than one DB instances returned"
    | NoCorrespondingSnapshot   // "no corresponding the DB snapshot"
    // The two sentinel values of error.go; no operation of the model returns them.
    | ErrDBNotCreatedByCavalier
    | ErrNoSnapshot

  /** `IsDBInstanceNotFound`: `errors.As` finds a `DBInstanceNotFoundFault` in the chain. */
  predicate IsDBInstanceNotFound(e: Error) {
    e.Wrapped? && e.cause == InstanceNotFound
  }

  /** `IsDBSnapshotNotFound`: `errors.As` finds a `DBSnapshotNotFoundFault` in the chain. */
  predicate IsDBSnapshotNotFound(e: Error) {
    e.Wrapped? && e.cause == SnapshotNotFound
  }

  /** `errors.As(err, &smerr)` finds a `ResourceExistsException` in the chain. */
  predicate IsResourceExists(e: Error) {
    e.Wrapped? && e.cause == ResourceExists
  }
}
