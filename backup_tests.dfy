/** The scenarios of main_test.go: a backup manager over a fresh fake or
    flaky snapshot taker, first for every batch and then for the concrete
    batches of the tests. */
module BackupTests {
  import opened Snapshots
  import opened Naming
  import opened Doubles
  import opened Backup

  /** `ids` without the occurrences of `x`, in their order. */
  function Without(ids: seq<string>, x: string): (r: seq<string>)
    ensures forall id :: id in r <==> id in ids && id != x
  {
    if ids == [] then []
    else if ids[0] == x then Without(ids[1..], x)
    else [ids[0]] + Without(ids[1..], x)
  }

  /** The index of the first occurrence of `x` in `ids`. */
  function IndexOf(ids: seq<string>, x: string): (k: nat)
    requires x in ids
    ensures k < |ids| && ids[k] == x
    ensures forall j :: 0 <= j < k ==> ids[j] != x
  {
    if ids[0] == x then 0 else 1 + IndexOf(ids[1..], x)
  }

  /** The flaky taker's journal of the manager's requests is the requests for
      the ids other than the offending one. */
  lemma {:induction false} OmitRequests(prefix: string, ids: seq<string>, x: string)
    ensures Omit(Requests(prefix, ids), x) == Requests(prefix, Without(ids, x))
  {
    if ids != [] {
      var rs := Requests(prefix, ids);
      assert rs[1..] == Requests(prefix, ids[1..]);
      OmitRequests(prefix, ids[1..], x);
    }
  }

  /** A prefix of the ids free of `x` loses nothing to `Without`. */
  lemma {:induction false} WithoutAbsent(ids: seq<string>, x: string)
    requires forall j :: 0 <= j < |ids| ==> ids[j] != x
    ensures Without(ids, x) == ids
  {
    if ids != [] {
      WithoutAbsent(ids[1..], x);
    }
  }

  /** Of the requests up to and including the first one for `x`, the flaky
      taker journals those before it. */
  lemma OmitUpToFirst(prefix: string, ids: seq<string>, x: string)
    requires x in ids
    ensures var k := IndexOf(ids, x);
            Omit(Requests(prefix, ids[..k + 1]), x) == Requests(prefix, ids[..k])
  {
    var k := IndexOf(ids, x);
    assert ids[..k + 1] == ids[..k] + [x];
    OmitRequests(prefix, ids[..k + 1], x);
    WithoutAbsent(ids[..k], x);
    WithoutAppend(ids[..k], [x], x);
    assert Without([x], x) == [];
  }

  lemma {:induction false} WithoutAppend(a: seq<string>, b: seq<string>, x: string)
    ensures Without(a + b, x) == Without(a, x) + Without(b, x)
  {
    if a != [] {
      assert (a + b)[1..] == a[1..] + b;
      WithoutAppend(a[1..], b, x);
    } else {
      assert a + b == b;
    }
  }

  /** With an always-succeeding taker a non-empty batch returns nil and the
      journal holds one request per id, in input order; an empty batch
      returns the sentinel and journals nothing. */
  method TriggerWithFakeSnapshotTaker(prefix: string, ids: seq<string>) returns (err: Option<Error>, journal: seq<CreationRecord>)
    ensures ids == [] ==> err == Some(ErrNoIdentifiersSpecified) && journal == []
    ensures ids != [] ==> err == None && journal == Requests(prefix, ids)
  {
    var st := new FakeSnapshotTaker();
    var bm := new BackupManager(Fake(st), prefix);
    ghost var calls;
    err, calls := bm.TriggerSnapshots(ids);
    journal := st.journal;
    if ids != [] {
      NoFatalReplyRunsToTheEnd(prefix, ids, bm.st.Reply);
    }
  }

  /** With a taker that fails for `offending` with `failure`: a not-found
      fault (or nil) skips that id, the result is nil and every other id is
      journalled in order; any other error is returned unchanged and only the
      ids before the offending one are journalled. */
  method TriggerWithFlakySnapshotTaker(prefix: string, ids: seq<string>, offending: string, failure: Option<Error>)
    returns (err: Option<Error>, journal: seq<CreationRecord>)
    ensures ids == [] ==> err == Some(ErrNoIdentifiersSpecified) && journal == []
    ensures ids != [] && !(Fatal(failure) && offending in ids) ==>
              err == None && journal == Requests(prefix, Without(ids, offending))
    ensures ids != [] && Fatal(failure) && offending in ids ==>
              err == failure && journal == Requests(prefix, ids[..IndexOf(ids, offending)])
  {
    var st := new FlakySnapshotTaker(offending, failure);
    var bm := new BackupManager(Flaky(st), prefix);
    ghost var calls;
    err, calls := bm.TriggerSnapshots(ids);
    journal := st.Journal();
    if ids != [] {
      if Fatal(failure) && offending in ids {
        var k := IndexOf(ids, offending);
        FirstFatalReplyStops(prefix, ids, bm.st.Reply, k);
        OmitUpToFirst(prefix, ids, offending);
      } else {
        NoFatalReplyRunsToTheEnd(prefix, ids, bm.st.Reply);
        OmitRequests(prefix, ids, offending);
      }
    }
  }

  /** The request the tests expect for cluster `n` of "my-cluster-1" to
      "my-cluster-3". */
  lemma TestRequest(n: char)
    requires n in "123"
    ensures Request("testing", "my-cluster-" + [n]) == CreationRecord("my-cluster-" + [n], "testing-my-cluster-" + [n])
  {
    var id := "my-cluster-" + [n];
    assert Joined("testing", id) == "testing-my-cluster-" + [n];
    FormKeepsShortNames("testing", id);
  }

  /** The three requests the tests expect for clusters 1, 2 and 3. */
  lemma TestRequests()
    ensures Request("testing", "my-cluster-1") == CreationRecord("my-cluster-1", "testing-my-cluster-1")
    ensures Request("testing", "my-cluster-2") == CreationRecord("my-cluster-2", "testing-my-cluster-2")
    ensures Request("testing", "my-cluster-3") == CreationRecord("my-cluster-3", "testing-my-cluster-3")
  {
    TestRequest('1');
    assert "my-cluster-" + ['1'] == "my-cluster-1";
    assert "testing-my-cluster-" + ['1'] == "testing-my-cluster-1";
    TestRequest('2');
    assert "my-cluster-" + ['2'] == "my-cluster-2";
    assert "testing-my-cluster-" + ['2'] == "testing-my-cluster-2";
    TestRequest('3');
    assert "my-cluster-" + ['3'] == "my-cluster-3";
    assert "testing-my-cluster-" + ['3'] == "testing-my-cluster-3";
  }

  /** TestTriggerSnapshots: every cluster is snapshotted, in order. */
  method TestTriggerSnapshots() returns (err: Option<Error>, journal: seq<CreationRecord>)
    ensures err == None
    ensures journal == [CreationRecord("my-cluster-1", "testing-my-cluster-1"),
                        CreationRecord("my-cluster-2", "testing-my-cluster-2"),
                        CreationRecord("my-cluster-3", "testing-my-cluster-3")]
  {
    var st := new FakeSnapshotTaker();
    var bm := new BackupManager(Fake(st), "testing");
    ghost var calls;
    err, calls := bm.TriggerSnapshots(TestIds);
    journal := st.journal;
    NoFatalReplyRunsToTheEnd("testing", TestIds, bm.st.Reply);
    TestRequests();
  }

  /** The three ids of the tests, with prefix "testing". */
  const TestIds: seq<string> := ["my-cluster-1", "my-cluster-2", "my-cluster-3"]

  /** Only the second test id is the offending "my-cluster-2". */
  lemma TestIdsDiffer()
    ensures TestIds[0] != "my-cluster-2" && TestIds[1] == "my-cluster-2" && TestIds[2] != "my-cluster-2"
  {
    assert TestIds[0][11] == '1' && "my-cluster-2"[11] == '2';
    assert TestIds[2][11] == '3';
  }

  /** Without the offending "my-cluster-2", the test ids are clusters 1 and
      3, in order. */
  lemma WithoutOffendingTestId()
    ensures Without(TestIds, "my-cluster-2") == ["my-cluster-1", "my-cluster-3"]
    ensures Without(TestIds[..2], "my-cluster-2") == ["my-cluster-1"]
  {
    TestIdsDiffer();
    assert TestIds[..2][1..] == ["my-cluster-2"];
    assert TestIds == TestIds[..2] + [TestIds[2]];
    WithoutAppend(TestIds[..2], [TestIds[2]], "my-cluster-2");
  }

  /** The requests for two ids. */
  lemma RequestsOfTwo(prefix: string, a: string, b: string)
    ensures Requests(prefix, [a, b]) == [Request(prefix, a), Request(prefix, b)]
  {
  }

  /** What the flaky taker of the skip test journals when every test id is
      requested: clusters 1 and 3, in order. */
  lemma ContinueErrorJournal()
    ensures Omit(Requests("testing", TestIds), "my-cluster-2")
         == [CreationRecord("my-cluster-1", "testing-my-cluster-1"),
             CreationRecord("my-cluster-3", "testing-my-cluster-3")]
  {
    OmitRequests("testing", TestIds, "my-cluster-2");
    WithoutOffendingTestId();
    RequestsOfTwo("testing", "my-cluster-1", "my-cluster-3");
    TestRequests();
  }

  /** What the flaky taker of the fail-fast test journals when clusters 1 and
      2 are requested: cluster 1 only. */
  lemma GeneralErrorJournal()
    ensures Omit(Requests("testing", TestIds[..2]), "my-cluster-2")
         == [CreationRecord("my-cluster-1", "testing-my-cluster-1")]
  {
    OmitRequests("testing", TestIds[..2], "my-cluster-2");
    WithoutOffendingTestId();
    TestRequests();
  }

  /** TestTriggerSnapshotsWithContinueError: cluster 2 is not found and is
      skipped; the result is nil. */
  method TestTriggerSnapshotsWithContinueError() returns (err: Option<Error>, journal: seq<CreationRecord>)
    ensures err == None
    ensures journal == [CreationRecord("my-cluster-1", "testing-my-cluster-1"),
                        CreationRecord("my-cluster-3", "testing-my-cluster-3")]
  {
    var st := new FlakySnapshotTaker("my-cluster-2", Some(DBClusterNotFoundFault));
    var bm := new BackupManager(Flaky(st), "testing");
    ghost var calls;
    err, calls := bm.TriggerSnapshots(TestIds);
    journal := st.Journal();
    NoFatalReplyRunsToTheEnd("testing", TestIds, bm.st.Reply);
    ContinueErrorJournal();
  }

  /** TestTriggerSnapshotsWithError: a general failure on cluster 2 is
      returned and cluster 3 is never attempted. */
  method TestTriggerSnapshotsWithError() returns (err: Option<Error>, journal: seq<CreationRecord>)
    ensures err == Some(GeneralError("general failure"))
    ensures journal == [CreationRecord("my-cluster-1", "testing-my-cluster-1")]
  {
    var st := new FlakySnapshotTaker("my-cluster-2", Some(GeneralError("general failure")));
    var bm := new BackupManager(Flaky(st), "testing");
    ghost var calls;
    err, calls := bm.TriggerSnapshots(TestIds);
    journal := st.Journal();
    TestIdsDiffer();
    FirstFatalReplyStops("testing", TestIds, bm.st.Reply, 1);
    GeneralErrorJournal();
  }
}
