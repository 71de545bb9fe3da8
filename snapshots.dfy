/** Values shared by the backup manager and its snapshot takers: Go's
    nil-or-error results, the error kinds the manager tells apart, and the
    (cluster id, snapshot name) pair of one create request. */
module Snapshots {

  /** `None` is Go's nil. */
  datatype Option<+T> = None | Some(value: T)

  /** The error values that reach the manager. Go finds a not-found fault by
      its type; here the constructor is the type. Go's `errors.New` values and
      fault pointers are compared by identity, while these values are equal
      when their fields are; the manager never compares two errors, so the
      difference does not show in its behaviour. */
  datatype Error =
    | BackupManagerError(message: string)  // main.go:28-32
    | DBClusterNotFoundFault               // the RDS fault `errors.As` looks for (main.go:57-58)
    | GeneralError(message: string)        // any other error, such as `errors.New("general failure")`

  /** The sentinel returned for an empty batch (main.go:34); the typo is the
      source's own. */
  const ErrNoIdentifiersSpecified: Error := BackupManagerError("recieved no cluster identifiers")

  /** The manager's classification of a taker's failure (main.go:57-58):
      exactly the RDS not-found fault is skipped; every other error stops the
      batch. */
  function IsClusterNotFound(e: Error): (notFound: bool)
    ensures notFound <==> e == DBClusterNotFoundFault
  {
    e.DBClusterNotFoundFault?
  }

  /** One create request, as sent in `CreateDBClusterSnapshotInput` and as
      journalled by the test double (`snapshotCreationRecord`). */
  datatype CreationRecord = CreationRecord(dbClusterIdentifier: string, dbClusterSnapshotIdentifier: string)
}
