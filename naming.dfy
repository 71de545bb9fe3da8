/** Derivation of a snapshot identifier from the manager's naming prefix and a
    cluster identifier (main.go:42-48). Strings stand for Go byte strings:
    one character is one byte, so `|s|` is Go's `len(s)` and `s[..n]` is
    Go's `s[:n]`. */
module Naming {

  /** The separator `strings.Join` puts between prefix and cluster id, and the
      suffix `strings.TrimSuffix` removes. */
  const Separator: string := "-"

  /** Names of 64 bytes or more are cut to this many bytes. */
  const MaxSnapshotIdentifierLength: nat := 64

  function Min(a: nat, b: nat): nat { if a <= b then a else b }

  /** Go's `strings.HasSuffix`. */
  predicate HasSuffix(s: string, suffix: string) {
    |suffix| <= |s| && s[|s| - |suffix|..] == suffix
  }

  /** Go's `strings.TrimSuffix`: drops ONE occurrence of `suffix` at the end of
      `s`, if there is one, and otherwise returns `s` unchanged. */
  function TrimSuffix(s: string, suffix: string): (r: string)
    ensures HasSuffix(s, suffix) ==> r + suffix == s
    ensures !HasSuffix(s, suffix) ==> r == s
  {
    if HasSuffix(s, suffix) then s[..|s| - |suffix|] else s
  }

  /** `strings.Join([]string{prefix, clusterId}, "-")`. */
  function Joined(prefix: string, clusterId: string): string {
    prefix + Separator + clusterId
  }

  /** The snapshot identifier the manager sends for `clusterId` (the test file
      calls it `formSnapshotIdentifier`): join, keep at most the first 64
      bytes, then trim at most one trailing separator.

      The result is a prefix of the joined string, at most 64 bytes long, and
      at most one byte shorter than the joined string cut to 64 bytes. */
  function FormSnapshotIdentifier(prefix: string, clusterId: string): (name: string)
    ensures |name| <= MaxSnapshotIdentifierLength
    ensures name <= Joined(prefix, clusterId)
    ensures |name| + 1 >= Min(MaxSnapshotIdentifierLength, |Joined(prefix, clusterId)|)
  {
    var joined := Joined(prefix, clusterId);
    var cut := if |joined| >= MaxSnapshotIdentifierLength then joined[..MaxSnapshotIdentifierLength] else joined;
    TrimSuffix(cut, Separator)
  }

  /** The byte the trim looks at: the last byte of the joined string once it
      has been cut to 64 bytes. */
  function LastKeptByte(prefix: string, clusterId: string): char {
    var joined := Joined(prefix, clusterId);
    joined[Min(MaxSnapshotIdentifierLength, |joined|) - 1]
  }

  /** Exactly one byte is trimmed when the last kept byte is the separator, and
      none otherwise; the kept bytes are the joined string's first bytes. */
  lemma FormTrimsOnlyTheLastSeparator(prefix: string, clusterId: string)
    ensures var joined := Joined(prefix, clusterId);
            var bound := Min(MaxSnapshotIdentifierLength, |joined|);
            FormSnapshotIdentifier(prefix, clusterId)
              == if LastKeptByte(prefix, clusterId) == '-' then joined[..bound - 1] else joined[..bound]
  {
    var joined := Joined(prefix, clusterId);
    var bound := Min(MaxSnapshotIdentifierLength, |joined|);
    var cut := joined[..bound];
    assert |joined| < MaxSnapshotIdentifierLength ==> cut == joined;
    assert HasSuffix(cut, Separator) <==> cut[bound - 1] == '-';
  }

  /** A prefix shorter than 64 bytes survives whole at the start of every
      name: the cut and the trim only ever remove bytes after it. */
  lemma FormStartsWithPrefix(prefix: string, clusterId: string)
    ensures |prefix| < MaxSnapshotIdentifierLength ==> prefix <= FormSnapshotIdentifier(prefix, clusterId)
  {
    FormTrimsOnlyTheLastSeparator(prefix, clusterId);
    if |prefix| < MaxSnapshotIdentifierLength {
      var joined := Joined(prefix, clusterId);
      var name := FormSnapshotIdentifier(prefix, clusterId);
      assert |name| >= |prefix|;
      assert name[..|prefix|] == joined[..|prefix|] == prefix;
    }
  }

  /** A joined string shorter than 64 bytes whose cluster id is non-empty and
      does not end in the separator is used unchanged. */
  lemma FormKeepsShortNames(prefix: string, clusterId: string)
    requires |Joined(prefix, clusterId)| < MaxSnapshotIdentifierLength
    requires clusterId != [] && clusterId[|clusterId| - 1] != '-'
    ensures FormSnapshotIdentifier(prefix, clusterId) == Joined(prefix, clusterId)
  {
    FormTrimsOnlyTheLastSeparator(prefix, clusterId);
  }

  /** Truncation comes before trimming: a joined string of 64 bytes or more
      gives its first 64 bytes, or its first 63 when byte 64 is the separator. */
  lemma FormTruncatesLongNames(prefix: string, clusterId: string)
    requires |Joined(prefix, clusterId)| >= MaxSnapshotIdentifierLength
    ensures var joined := Joined(prefix, clusterId);
            var name := FormSnapshotIdentifier(prefix, clusterId);
            (joined[63] == '-' ==> name == joined[..63]) &&
            (joined[63] != '-' ==> name == joined[..64])
  {
    FormTrimsOnlyTheLastSeparator(prefix, clusterId);
  }

  /** With an empty cluster id the joined string ends in the separator, so a
      short prefix comes back alone. */
  lemma FormEmptyClusterId(prefix: string)
    requires |prefix| < MaxSnapshotIdentifierLength
    ensures FormSnapshotIdentifier(prefix, "") == prefix
  {
    FormTrimsOnlyTheLastSeparator(prefix, "");
    assert Joined(prefix, "")[..|prefix|] == prefix;
  }

  /** Only one trailing separator goes: a cluster id ending in two of them
      still yields a name that ends in the separator. */
  lemma FormKeepsASecondTrailingSeparator()
    ensures FormSnapshotIdentifier("testing", "my-cluster--") == "testing-my-cluster-"
  {
    FormKeepsASecondTrailingSeparatorAt("testing", "my-cluster-");
    assert Joined("testing", "my-cluster-") == "testing-my-cluster-";
  }

  /** The general form of the example above. */
  lemma FormKeepsASecondTrailingSeparatorAt(prefix: string, stem: string)
    requires |Joined(prefix, stem)| < MaxSnapshotIdentifierLength
    ensures FormSnapshotIdentifier(prefix, stem + "-") == Joined(prefix, stem)
  {
    FormTrimsOnlyTheLastSeparator(prefix, stem + "-");
    assert Joined(prefix, stem + "-") == Joined(prefix, stem) + "-";
  }

  /** `n` copies of `c`. */
  function Repeat(c: char, n: nat): (s: string)
    ensures |s| == n && forall k :: 0 <= k < n ==> s[k] == c
  {
    seq(n, _ => c)
  }

  /** The cases of TestFormSnapshotIdentifier with prefix "testing". The long
      cluster id is "my-cluster-1-" followed by 43 ones and a zero (57 bytes),
      and the expected name "testing-my-cluster-1-" followed by 43 ones (64
      bytes). */
  lemma FormSnapshotIdentifierExamples()
    ensures FormSnapshotIdentifier("testing", "my-cluster-1") == "testing-my-cluster-1"
    ensures FormSnapshotIdentifier("testing", "my-cluster-1-" + Repeat('1', 43) + "0")
         == "testing-my-cluster-1-" + Repeat('1', 43)
    ensures FormSnapshotIdentifier("testing", "my-cluster-1-") == "testing-my-cluster-1"
  {
    assert Joined("testing", "my-cluster-1") == "testing-my-cluster-1";
    FormKeepsShortNames("testing", "my-cluster-1");
    var ones := Repeat('1', 43);
    var long := "my-cluster-1-" + ones + "0";
    assert Joined("testing", long) == "testing-my-cluster-1-" + ones + "0";
    FormTruncatesLongNames("testing", long);
    FormKeepsASecondTrailingSeparatorAt("testing", "my-cluster-1");
  }
}
