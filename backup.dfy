/** The backup manager of main.go: for each cluster id of a batch it derives a
    snapshot name and asks its snapshot taker to create the snapshot,
    skipping clusters that are not found and stopping at any other error. */
module Backup {
  import opened Snapshots
  import opened Naming
  import opened Doubles

  /** The `SnapshotTaker` interface, closed over the implementations the
      repository has: the two test doubles, and the RDS client as `Remote`,
      whose answer to each cluster id is a parameter because its code is not
      part of this model. */
  datatype SnapshotTaker =
    | Fake(fake: FakeSnapshotTaker)
    | Flaky(flaky: FlakySnapshotTaker)
    | Remote(answer: string -> Option<Error>)
  {
    /** The objects a create request may change. */
    function Footprint(): set<object> {
      match this
      case Fake(f) => {f}
      case Flaky(k) => {k.fake}
      case Remote(_) => {}
    }

    /** The requests the taker has journalled; the RDS client keeps none. */
    function Journal(): seq<CreationRecord>
      reads Footprint()
    {
      match this
      case Fake(f) => f.journal
      case Flaky(k) => k.Journal()
      case Remote(_) => []
    }

    /** The error the taker answers a request for `clusterId` with: the fake
        never fails, and the flaky taker fails only for its offending id. */
    function Reply(clusterId: string): (reply: Option<Error>)
      ensures Fake? ==> reply == None
      ensures Flaky? && clusterId != flaky.offensiveClusterId ==> reply == None
      ensures Flaky? && clusterId == flaky.offensiveClusterId ==> reply == flaky.err
    {
      match this
      case Fake(_) => None
      case Flaky(k) => if clusterId == k.offensiveClusterId then k.err else None
      case Remote(answer) => answer(clusterId)
    }

    /** The part of the requests `calls` that the taker journals: all of them
        for the fake, all but the offending id's for the flaky taker, none for
        the RDS client. */
    function Journaled(calls: seq<CreationRecord>): (journaled: seq<CreationRecord>)
      ensures |journaled| <= |calls|
      ensures forall x :: x in journaled ==> x in calls
      ensures Fake? ==> journaled == calls
      ensures Flaky? ==> forall x :: x in journaled <==> x in calls && x.dbClusterIdentifier != flaky.offensiveClusterId
    {
      match this
      case Fake(_) => calls
      case Flaky(k) => Omit(calls, k.offensiveClusterId)
      case Remote(_) => []
    }

    /** Journalling request by request is journalling them all at once. */
    lemma JournaledAppend(a: seq<CreationRecord>, b: seq<CreationRecord>)
      ensures Journaled(a + b) == Journaled(a) + Journaled(b)
    {
      if Flaky? {
        OmitAppend(a, b, flaky.offensiveClusterId);
      }
    }

    /** `CreateDBClusterSnapshot` through the interface; the snapshot it
        returns is not used by the manager and is dropped here. */
    method CreateDBClusterSnapshot(input: CreationRecord) returns (err: Option<Error>)
      modifies Footprint()
      ensures err == Reply(input.dbClusterIdentifier)
      ensures Journal() == old(Journal()) + Journaled([input])
    {
      match this
      case Fake(f) =>
        var _, e := f.CreateDBClusterSnapshot(input);
        err := e;
      case Flaky(k) =>
        var _, e := k.CreateDBClusterSnapshot(input);
        err := e;
        if input.dbClusterIdentifier == k.offensiveClusterId {
          assert Omit([input], k.offensiveClusterId) == [];
        } else {
          assert Omit([input], k.offensiveClusterId) == [input];
        }
      case Remote(answer) =>
        err := answer(input.dbClusterIdentifier);
    }
  }

  /** The request the manager sends for `clusterId` (main.go:49-55). */
  function Request(prefix: string, clusterId: string): CreationRecord {
    CreationRecord(clusterId, FormSnapshotIdentifier(prefix, clusterId))
  }

  /** A request's snapshot name is at most 64 bytes, is a prefix of
      `prefix + "-" + clusterId`, and starts with the whole naming prefix
      when that is shorter than 64 bytes. */
  lemma RequestNamesTheSnapshot(prefix: string, clusterId: string)
    ensures var name := Request(prefix, clusterId).dbClusterSnapshotIdentifier;
            && |name| <= MaxSnapshotIdentifierLength
            && name <= Joined(prefix, clusterId)
            && (|prefix| < MaxSnapshotIdentifierLength ==> prefix <= name)
  {
    FormStartsWithPrefix(prefix, clusterId);
  }

  /** One request per id, in the order of the ids. */
  function Requests(prefix: string, ids: seq<string>): (r: seq<CreationRecord>)
    ensures |r| == |ids|
    ensures forall j :: 0 <= j < |ids| ==> r[j] == Request(prefix, ids[j])
  {
    if ids == [] then [] else [Request(prefix, ids[0])] + Requests(prefix, ids[1..])
  }

  /** A reply that stops the batch: any error but the not-found fault. Nil
      and the not-found fault let the batch go on. */
  function Fatal(reply: Option<Error>): (stops: bool)
    ensures stops <==> reply != None && reply != Some(DBClusterNotFoundFault)
  {
    reply.Some? && !IsClusterNotFound(reply.value)
  }

  /** What a call of `TriggerSnapshots` did: the create requests it sent, in
      order, and the error it returned. */
  datatype Run = Run(calls: seq<CreationRecord>, err: Option<Error>)

  /** The loop of `TriggerSnapshots` (main.go:41-65) against a taker that
      answers `respond`. What it sends and returns is stated by
      `DispatchSendsUpToFirstFatal`. */
  function Dispatch(prefix: string, ids: seq<string>, respond: string -> Option<Error>): (r: Run)
    ensures |r.calls| <= |ids|
    ensures r.err != None ==> Fatal(r.err)
  {
    if ids == [] then Run([], None)
    else
      var call := Request(prefix, ids[0]);
      var reply := respond(ids[0]);
      if Fatal(reply) then Run([call], reply)
      else
        var rest := Dispatch(prefix, ids[1..], respond);
        Run([call] + rest.calls, rest.err)
  }

  /** The requests go out in the order of `ids`, one per id, up to and
      including the first id whose reply is fatal; that reply is returned
      unchanged, and if there is none every id is attempted and the result is
      nil. A not-found reply does not stop the batch. */
  lemma {:induction false} DispatchSendsUpToFirstFatal(prefix: string, ids: seq<string>, respond: string -> Option<Error>)
    ensures var r := Dispatch(prefix, ids, respond);
            && (forall j :: 0 <= j < |r.calls| ==> r.calls[j] == Request(prefix, ids[j]))
            && (r.err == None ==> |r.calls| == |ids|)
            && (r.err != None ==> 0 < |r.calls| && respond(ids[|r.calls| - 1]) == r.err)
            && (forall j :: 0 <= j < |r.calls| && (r.err == None || j < |r.calls| - 1) ==> !Fatal(respond(ids[j])))
  {
    if ids != [] && !Fatal(respond(ids[0])) {
      DispatchSendsUpToFirstFatal(prefix, ids[1..], respond);
      var rest := Dispatch(prefix, ids[1..], respond);
      var r := Dispatch(prefix, ids, respond);
      assert r.calls == [Request(prefix, ids[0])] + rest.calls;
      forall j | 0 < j < |r.calls|
        ensures r.calls[j] == Request(prefix, ids[j])
      {
        assert r.calls[j] == rest.calls[j - 1];
      }
    }
  }

  /** `TriggerSnapshots` (main.go:36-66): an empty batch sends nothing and
      returns the sentinel; any other batch sends at least its first
      request. */
  function Trigger(prefix: string, ids: seq<string>, respond: string -> Option<Error>): (r: Run)
    ensures ids == [] ==> r == Run([], Some(ErrNoIdentifiersSpecified))
    ensures ids != [] ==> r.calls != [] && r.calls[0] == Request(prefix, ids[0])
  {
    if ids == [] then Run([], Some(ErrNoIdentifiersSpecified)) else Dispatch(prefix, ids, respond)
  }

  /** The sentinel of an empty batch (main.go:28-38) is the manager's own
      error kind with its fixed message, and it is a failure: not nil and not
      the not-found fault. */
  lemma EmptyBatchReturnsTheSentinel(prefix: string, respond: string -> Option<Error>)
    ensures var r := Trigger(prefix, [], respond);
            && r.calls == []
            && r.err == Some(BackupManagerError("recieved no cluster identifiers"))
            && Fatal(r.err)
  {
  }

  /** Splitting a batch: once the first part has failed, the second part is
      never attempted; otherwise the second part runs as a batch of its own
      after the first. */
  lemma {:induction false} DispatchAppend(prefix: string, xs: seq<string>, ys: seq<string>, respond: string -> Option<Error>)
    ensures var first := Dispatch(prefix, xs, respond);
            var second := Dispatch(prefix, ys, respond);
            Dispatch(prefix, xs + ys, respond)
              == if first.err == None then Run(first.calls + second.calls, second.err) else first
  {
    if xs == [] {
      assert xs + ys == ys;
    } else {
      assert (xs + ys)[1..] == xs[1..] + ys;
      DispatchAppend(prefix, xs[1..], ys, respond);
      if !Fatal(respond(xs[0])) {
        var first := Dispatch(prefix, xs[1..], respond);
        var second := Dispatch(prefix, ys, respond);
        assert [Request(prefix, xs[0])] + (first.calls + second.calls)
            == ([Request(prefix, xs[0])] + first.calls) + second.calls;
      }
    }
  }

  /** One turn of the loop: after a prefix of the batch has run without a
      fatal reply, the next id adds its request; a fatal reply there ends the
      whole batch. */
  lemma DispatchStep(prefix: string, ids: seq<string>, i: nat, respond: string -> Option<Error>)
    requires i < |ids| && Dispatch(prefix, ids[..i], respond).err == None
    ensures var before := Dispatch(prefix, ids[..i], respond);
            var reply := respond(ids[i]);
            Dispatch(prefix, ids[..i + 1], respond)
              == Run(before.calls + [Request(prefix, ids[i])], if Fatal(reply) then reply else None)
    ensures Fatal(respond(ids[i])) ==> Dispatch(prefix, ids, respond) == Dispatch(prefix, ids[..i + 1], respond)
  {
    assert ids[..i + 1] == ids[..i] + [ids[i]];
    DispatchAppend(prefix, ids[..i], [ids[i]], respond);
    assert ids == ids[..i + 1] + ids[i + 1..];
    DispatchAppend(prefix, ids[..i + 1], ids[i + 1..], respond);
  }

  /** A batch in which no reply is fatal runs to the end and returns nil, with
      one request per id in input order: not-found ids are attempted and
      skipped, and never make the result an error. */
  lemma NoFatalReplyRunsToTheEnd(prefix: string, ids: seq<string>, respond: string -> Option<Error>)
    requires forall j :: 0 <= j < |ids| ==> !Fatal(respond(ids[j]))
    ensures Dispatch(prefix, ids, respond) == Run(Requests(prefix, ids), None)
  {
    DispatchSendsUpToFirstFatal(prefix, ids, respond);
    var r := Dispatch(prefix, ids, respond);
    assert r.err == None;
    assert r.calls == Requests(prefix, ids);
  }

  /** The first fatal reply, at index `k`, is returned unchanged, and exactly
      the requests for `ids[..k+1]` have been sent: nothing after it is
      attempted. */
  lemma FirstFatalReplyStops(prefix: string, ids: seq<string>, respond: string -> Option<Error>, k: nat)
    requires k < |ids| && Fatal(respond(ids[k]))
    requires forall j :: 0 <= j < k ==> !Fatal(respond(ids[j]))
    ensures Dispatch(prefix, ids, respond) == Run(Requests(prefix, ids[..k + 1]), respond(ids[k]))
  {
    DispatchSendsUpToFirstFatal(prefix, ids, respond);
    var r := Dispatch(prefix, ids, respond);
    assert r.err != None;
    assert |r.calls| == k + 1;
    assert r.calls == Requests(prefix, ids[..k + 1]);
  }

  /** Holds the snapshot taker and the naming prefix (main.go:18-22); both are
      set once and never changed. */
  class BackupManager {
    const st: SnapshotTaker
    const prefix: string

    constructor (st: SnapshotTaker, prefix: string)
      ensures this.st == st && this.prefix == prefix
    {
      this.st := st;
      this.prefix := prefix;
    }

    /** Sends one create request per cluster id, in order, as `Trigger`
        describes; the ghost `calls` are the requests sent. The taker's
        journal grows by the part of them it journals. */
    method TriggerSnapshots(clusterIdentifiers: seq<string>) returns (err: Option<Error>, ghost calls: seq<CreationRecord>)
      modifies st.Footprint()
      ensures Trigger(prefix, clusterIdentifiers, st.Reply) == Run(calls, err)
      ensures st.Journal() == old(st.Journal()) + st.Journaled(calls)
    {
      calls := [];
      if |clusterIdentifiers| == 0 {
        return Some(ErrNoIdentifiersSpecified), calls;
      }
      var i := 0;
      while i < |clusterIdentifiers|
        invariant 0 <= i <= |clusterIdentifiers|
        invariant Dispatch(prefix, clusterIdentifiers[..i], st.Reply) == Run(calls, None)
        invariant st.Journal() == old(st.Journal()) + st.Journaled(calls)
      {
        var clusterIdentifier := clusterIdentifiers[i];
        var input := CreationRecord(clusterIdentifier, FormSnapshotIdentifier(prefix, clusterIdentifier));
        var e := st.CreateDBClusterSnapshot(input);
        st.JournaledAppend(calls, [input]);
        DispatchStep(prefix, clusterIdentifiers, i, st.Reply);
        calls := calls + [input];
        if e.Some? && !IsClusterNotFound(e.value) {
          return e, calls;
        }
        i := i + 1;
      }
      assert clusterIdentifiers[..i] == clusterIdentifiers;
      err := None;
    }
  }
}
