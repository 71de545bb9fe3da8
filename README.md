# Batch snapshot trigger, modelled in Dafny

This project models the backup manager of a small Go program. The program asks
Amazon RDS to create a snapshot of each database cluster named on its command
line. The model covers three parts:

- **Naming** (`naming.dfy`). `FormSnapshotIdentifier` is the name the manager
  gives each snapshot. It joins the naming prefix, `-` and the cluster id. If
  that is 64 bytes or more, it keeps the first 64 bytes. Then it removes one
  trailing `-`, if there is one. Strings stand for Go byte strings: one
  character is one byte.
- **Orchestration** (`snapshots.dfy`, `backup.dfy`). `BackupManager` is a class
  with a constant snapshot taker and a constant prefix. Its `TriggerSnapshots`
  method has the source's loop. An empty batch returns the sentinel
  `ErrNoIdentifiersSpecified`. Otherwise the method sends one create request
  per id, in order. A `DBClusterNotFoundFault` is skipped. Any other error is
  returned unchanged and stops the batch. The method is proved equal to the pure
  function `Trigger`/`Dispatch`. The lemmas about that function
  state the order, fail-fast and skip properties.
- **Test doubles and test scenarios** (`doubles.dfy`, `backup_tests.dfy`).
  `FakeSnapshotTaker` journals every request and always succeeds.
  `FlakySnapshotTaker` fails with a fixed error for one cluster id and passes
  every other request to its own fake. Each of the three batch tests of
  `main_test.go` is a method that builds the same objects, runs the manager
  and states the result and the journal in its `ensures`. Two more methods
  state the same facts for every batch, prefix, offending id and error. The
  naming test, which needs no manager, is the lemma
  `Naming.FormSnapshotIdentifierExamples`.

Go's `error` is `Option<Error>`, where `None` is nil. `Error` separates the
manager's own sentinel, the RDS not-found fault and any other error. The Go
`SnapshotTaker` interface is the datatype `SnapshotTaker`. Its variants are the
two doubles and `Remote`, which stands for the RDS client. `Remote` holds the
client's answer for each cluster id as a function parameter.

Three facts about the naming code are worth knowing:

- A name can still end in `-`. The code removes only one trailing `-`, so
  the cluster id `my-cluster--` gives `testing-my-cluster-`
  (`Naming.FormKeepsASecondTrailingSeparator`). The model proves what the code
  does: at most one byte is removed, and only when it is `-`.
- The long test id gives a 64-byte name, because byte 64 of the joined string
  is `1` (`Naming.FormSnapshotIdentifierExamples`).
- An empty cluster id is accepted. The joined string then ends in `-`, so a
  short prefix comes back alone (`Naming.FormEmptyClusterId`).

## Model

| member | source | states |
|---|---|---|
| `Naming.TrimSuffix` | main.go:48 | when `s` ends in `suffix`, the result plus `suffix` is `s`; otherwise the result is `s` |
| `Naming.FormSnapshotIdentifier` | main.go:42-48 | the name is a prefix of `prefix + "-" + id`, is at most 64 bytes, and is at most one byte shorter than the joined string cut to 64 bytes |
| `Naming.FormTrimsOnlyTheLastSeparator` | main.go:44-48 | the name is the joined string cut to `min(64, len)` bytes, less one more byte exactly when the last kept byte is `-` |
| `Naming.FormStartsWithPrefix` | main.go:42-48 | a prefix under 64 bytes is kept whole at the start of every name: the cut and the trim remove only bytes after it |
| `Naming.FormKeepsShortNames` | main.go:42-48 | a joined string under 64 bytes, with a non-empty id that does not end in `-`, is the name unchanged |
| `Naming.FormTruncatesLongNames` | main.go:43-48 | truncation comes before trimming: a joined string of 64 bytes or more gives its first 64 bytes, or its first 63 when byte 64 is `-` |
| `Naming.FormEmptyClusterId` | main.go:42-48 | an empty cluster id with a prefix under 64 bytes gives the prefix alone |
| `Naming.FormKeepsASecondTrailingSeparatorAt` | main.go:48 | for a short join, an id `stem + "-"` gives exactly `prefix + "-" + stem`, so a `stem` that ends in `-` keeps that `-` |
| `Naming.FormKeepsASecondTrailingSeparator` | main.go:48 | `my-cluster--` with prefix `testing` gives `testing-my-cluster-`, which still ends in `-` |
| `Naming.FormSnapshotIdentifierExamples` | main_test.go:104-123 | the three cases of TestFormSnapshotIdentifier: no truncation, truncation to 64 bytes, one trailing `-` removed |
| `Doubles.FakeSnapshotTaker.constructor` | main_test.go:32-36 | `NewFakeSnapshotTaker` starts with an empty journal |
| `Doubles.FakeSnapshotTaker.CreateDBClusterSnapshot` | main_test.go:22-30 | appends exactly the request to the end of the journal, leaves earlier entries unchanged, echoes the request and never fails |
| `Doubles.FlakySnapshotTaker.constructor` | main_test.go:44-50 | keeps the offending id and the error, and wraps a fresh fake with an empty journal |
| `Doubles.FlakySnapshotTaker.CreateDBClusterSnapshot` | main_test.go:52-57 | the offending id gets the fixed error, no snapshot and an unchanged journal; any other id gets exactly the fake's behaviour |
| `Doubles.Omit` | main_test.go:52-57 | the requests the flaky taker journals are exactly those whose cluster id is not the offending one |
| `Doubles.OmitAppend` | main_test.go:52-57 | the flaky taker's filtering of requests distributes over concatenation |
| `Snapshots.IsClusterNotFound` | main.go:57-58 | an error is skipped exactly when it is the RDS not-found fault |
| `Backup.SnapshotTaker.Reply` | main_test.go:22-56 | the fake always answers nil; the flaky taker answers its fixed error for the offending id and nil for every other id |
| `Backup.SnapshotTaker.Journaled` | main_test.go:22-56 | the fake journals every request, in order; the flaky taker journals exactly the requests not for the offending id; no taker journals a request it was not sent, or more requests than it was sent |
| `Backup.SnapshotTaker.CreateDBClusterSnapshot` | main.go:24-26 | a call through the interface answers `Reply` for the cluster id and grows the journal by exactly what that taker journals |
| `Backup.SnapshotTaker.JournaledAppend` | main_test.go:22-23 | what a taker journals for two runs of requests is what it journals for each, concatenated |
| `Backup.RequestNamesTheSnapshot` | main.go:42-55 | the snapshot name sent for an id is at most 64 bytes, is a prefix of `prefix + "-" + id`, and starts with the whole naming prefix when that is under 64 bytes |
| `Backup.Requests` | main.go:41-55 | one request per id, in the order of the ids |
| `Backup.Fatal` | main.go:56-62 | a reply stops the batch exactly when it is an error other than the not-found fault; nil and the not-found fault let it go on |
| `Backup.Dispatch` | main.go:41-65 | at most one request per id is sent, and a returned error is never a not-found fault |
| `Backup.DispatchSendsUpToFirstFatal` | main.go:41-65 | requests go out in input order, one per id, up to and including the first fatal reply; that reply is returned unchanged; with no fatal reply every id is attempted and the result is nil |
| `Backup.Trigger` | main.go:36-40 | an empty batch sends nothing and returns `ErrNoIdentifiersSpecified`; a non-empty batch always sends the request for its first id |
| `Backup.EmptyBatchReturnsTheSentinel` | main.go:28-38 | an empty batch sends nothing and returns `ErrNoIdentifiersSpecified`, the manager's own error kind with the message `recieved no cluster identifiers`, which counts as a failure |
| `Backup.DispatchAppend` | main.go:56-62 | once part of a batch fails, nothing after it is attempted; otherwise the rest runs as a batch of its own |
| `Backup.DispatchStep` | main.go:49-63 | one loop turn adds the request for the next id; a fatal reply there ends the whole batch with that reply |
| `Backup.NoFatalReplyRunsToTheEnd` | main.go:56-65 | if every reply is success or not-found, the result is nil and exactly one request per id is sent, in order |
| `Backup.FirstFatalReplyStops` | main.go:56-62 | the first fatal reply, at index k, is returned unchanged, and exactly the requests for ids 0..k are sent |
| `Backup.BackupManager.constructor` | main.go:18-22 | the manager holds the given taker and prefix |
| `Backup.BackupManager.TriggerSnapshots` | main.go:36-66 | the returned error and the requests sent are those of `Trigger`, and the taker's journal grows by the part of those requests it journals |
| `BackupTests.OmitRequests` | main_test.go:52-57 | the flaky taker journals the requests for the ids other than the offending one |
| `BackupTests.OmitUpToFirst` | main_test.go:52-57 | of the requests up to and including the first one for the offending id, the flaky taker journals those before it |
| `BackupTests.TriggerWithFakeSnapshotTaker` | main_test.go:59-72 | with the fake, any non-empty batch returns nil and journals one request per id, in order; an empty batch returns the sentinel and journals nothing |
| `BackupTests.TriggerWithFlakySnapshotTaker` | main_test.go:74-102 | with the flaky taker, a not-found or nil error gives nil and journals every other id in order; any other error on an id of the batch is returned unchanged and only the ids before it are journalled |
| `BackupTests.TestRequests` | main_test.go:67-71 | the expected records for `my-cluster-1..3` with prefix `testing` are the manager's requests |
| `BackupTests.TestIdsDiffer` | main_test.go:65 | of the three test ids only the second, `my-cluster-2`, is the offending id of the flaky tests |
| `BackupTests.ContinueErrorJournal` | main_test.go:74-87 | of the requests for clusters 1 to 3, the taker that refuses cluster 2 journals those for clusters 1 and 3, with their names, in order |
| `BackupTests.GeneralErrorJournal` | main_test.go:89-102 | of the requests for clusters 1 and 2, the taker that refuses cluster 2 journals the one for cluster 1 |
| `BackupTests.TestTriggerSnapshots` | main_test.go:59-72 | nil, and the journal holds clusters 1, 2 and 3 with their names, in order |
| `BackupTests.TestTriggerSnapshotsWithContinueError` | main_test.go:74-87 | with a not-found fault on cluster 2: nil, and the journal holds clusters 1 and 3, in order |
| `BackupTests.TestTriggerSnapshotsWithError` | main_test.go:89-102 | with a general failure on cluster 2: that error, and the journal holds cluster 1 only |

## Left out

- `main` (main.go:68-83) is not modelled: loading the AWS configuration, building the RDS client, the `run-<unix time>` prefix, reading `os.Args` and `panic` are environment plumbing.
- The AWS SDK types are not modelled. `CreateDBClusterSnapshotInput` and the test's `snapshotCreationRecord` are both `CreationRecord`. `context.Context` and the option functions are dropped.
- `Backup.SnapshotTaker.CreateDBClusterSnapshot` drops the snapshot that a taker returns, because the manager never reads it. The two doubles' own methods do return it.
- The RDS client is `Remote`, whose answer depends only on the cluster id. A real service can answer the same id differently at different times. Its journal is empty, because it keeps no local record.
- Error wrapping is not modelled. `errors.As` searches a chain of wrapped errors. Here an error is a not-found fault exactly when it is `DBClusterNotFoundFault` itself.
- The `log.Printf` line for a skipped cluster (main.go:59) is not modelled; a skipped id is still among the requests sent.
- UTF-8 is not modelled: Go cuts names at byte 64 and the model treats each character as one byte.
- The test harness (testify `assert`, `t.Run`, the map of named cases) is not modelled. Only the concrete inputs and outputs of the tests are kept.
- main.go defines no `formSnapshotIdentifier` method: the naming is inline in the loop (main.go:42-48). TestFormSnapshotIdentifier calls `bm.formSnapshotIdentifier` (main_test.go:129), so main_test.go does not compile as written. The model takes the inline code out as `Naming.FormSnapshotIdentifier`, a function of the prefix and the cluster id, and states the test's cases about it.
- `Naming.FormSnapshotIdentifierExamples` writes the 57-byte test id as `"my-cluster-1-" + Repeat('1', 43) + "0"`, and the expected name as `"testing-my-cluster-1-" + Repeat('1', 43)`. These are the same strings as the test's literals.
