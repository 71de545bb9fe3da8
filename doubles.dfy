/** The test doubles of main_test.go that stand in for the RDS client. */
module Doubles {
  import opened Snapshots

  /** Records the requests it receives, in order, and always succeeds
      (main_test.go:18-36). */
  class FakeSnapshotTaker {
    var journal: seq<CreationRecord>

    /** `NewFakeSnapshotTaker`: an empty journal. */
    constructor ()
      ensures journal == []
    {
      journal := [];
    }

    /** Appends the request to the journal and answers with a snapshot that
        echoes it; never fails. */
    method CreateDBClusterSnapshot(input: CreationRecord) returns (out: Option<CreationRecord>, err: Option<Error>)
      modifies this
      ensures journal == old(journal) + [input]
      ensures out == Some(input) && err == None
    {
      journal := journal + [input];
      out, err := Some(input), None;
    }
  }

  /** Fails with a fixed error for one cluster id and hands every other
      request to a fake of its own (main_test.go:38-57). The fixed error is
      Go's `error`, so it may be nil. */
  class FlakySnapshotTaker {
    const fake: FakeSnapshotTaker
    const offensiveClusterId: string
    const err: Option<Error>

    /** `NewFlakySnapshotTaker`: a fresh fake with an empty journal. */
    constructor (offensiveClusterId: string, err: Option<Error>)
      ensures this.offensiveClusterId == offensiveClusterId && this.err == err
      ensures fresh(fake) && fake.journal == []
    {
      fake := new FakeSnapshotTaker();
      this.offensiveClusterId := offensiveClusterId;
      this.err := err;
    }

    /** The journal the tests read through the embedded fake. */
    function Journal(): seq<CreationRecord>
      reads fake
    {
      fake.journal
    }

    /** The offending id gets the fixed error and no snapshot, and the journal
        is left alone; any other request is exactly the fake's. */
    method CreateDBClusterSnapshot(input: CreationRecord) returns (out: Option<CreationRecord>, e: Option<Error>)
      modifies fake
      ensures input.dbClusterIdentifier == offensiveClusterId ==>
                out == None && e == err && Journal() == old(Journal())
      ensures input.dbClusterIdentifier != offensiveClusterId ==>
                out == Some(input) && e == None && Journal() == old(Journal()) + [input]
    {
      if input.dbClusterIdentifier == offensiveClusterId {
        return None, err;
      }
      out, e := fake.CreateDBClusterSnapshot(input);
    }
  }

  /** The requests of `records` that a flaky taker passes on to its fake: all
      but those for `clusterId`, in their order. */
  function Omit(records: seq<CreationRecord>, clusterId: string): (r: seq<CreationRecord>)
    ensures forall x :: x in r <==> x in records && x.dbClusterIdentifier != clusterId
    ensures |r| <= |records|
  {
    if records == [] then []
    else if records[0].dbClusterIdentifier == clusterId then Omit(records[1..], clusterId)
    else [records[0]] + Omit(records[1..], clusterId)
  }

  /** Omitting commutes with appending, which is what lets a journal be
      followed one request at a time. */
  lemma {:induction false} OmitAppend(a: seq<CreationRecord>, b: seq<CreationRecord>, clusterId: string)
    ensures Omit(a + b, clusterId) == Omit(a, clusterId) + Omit(b, clusterId)
  {
    if a != [] {
      assert (a + b)[1..] == a[1..] + b;
      OmitAppend(a[1..], b, clusterId);
    } else {
      assert a + b == b;
    }
  }
}
