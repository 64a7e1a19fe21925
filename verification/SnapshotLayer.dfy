/** A node that holds a snapshot and the rest of the log behaves as one that holds the whole log
    (src/core/raft_core.rs:275-305, 526-634, 719-808). Two places of the source are narrower: the
    position at which a log is cut ignores the snapshot, and an installed snapshot keeps the rest of
    the log without comparing terms. Both are given with the exact condition under which they are
    right. */
module SnapshotLayer {
  import opened Types
  import opened CoreSteps
  import opened Batch

  // ----- the whole log behind a snapshot -----

  function TermAt(log: Log, index: nat): nat { if 1 <= index <= |log| then log[index - 1].term else 0 }

  ghost predicate Represents(whole: Log, c: Core) {
    && Contiguous(0, whole)
    && c.snapIndex <= |whole|
    && c.log == whole[c.snapIndex..]
    && c.snapTerm == TermAt(whole, c.snapIndex)
  }

  /** The node that never took a snapshot. */
  function Whole(whole: Log, c: Core): Core {
    c.(log := whole, snapIndex := 0, snapTerm := 0, threshold := 0)
  }

  lemma SameLookups(whole: Log, c: Core, index: nat)
    requires Represents(whole, c)
    ensures LastLogIndex(c) == LastLogIndex(Whole(whole, c)) == |whole|
    ensures LastLogTerm(c) == LastLogTerm(Whole(whole, c))
    ensures GetEntry(c, index) == if index <= c.snapIndex then None else GetEntry(Whole(whole, c), index)
  {
    var w := Whole(whole, c);
    if c.snapIndex < |whole| {
      assert c.log[|c.log| - 1] == whole[|whole| - 1];
    }
  }

  /** Votes are answered alike. */
  lemma SameVotes(whole: Log, c: Core, req: VoteArgs)
    requires Represents(whole, c)
    ensures HandleRequestVote(c, req).1 == HandleRequestVote(Whole(whole, c), req).1
    ensures var c' := HandleRequestVote(c, req).0;
            Represents(whole, c') && HandleRequestVote(Whole(whole, c), req).0 == Whole(whole, c')
  {
    SameLookups(whole, c, 0);
    SameLookups(whole, StepDown(c, req.term), 0);
    hide TermAt, Contiguous, LastLogIndex, LastLogTerm;
  }

  /** The entry check of a batch accepts what the whole log accepts, except inside the snapshot. */
  lemma SameCheck(whole: Log, c: Core, prev: nat, term: nat)
    requires Represents(whole, c)
    ensures CheckPrev(c, prev, term) == Agrees <==>
            CheckPrev(Whole(whole, c), prev, term) == Agrees && !(0 < prev < c.snapIndex)
  {
    SameLookups(whole, c, prev);
  }

  /** Batches that start inside the snapshot are turned away, with a hint at the first entry held. */
  lemma InsideSnapshotRejected(whole: Log, c: Core, prev: nat, term: nat)
    requires Represents(whole, c) && 0 < prev < c.snapIndex
    ensures CheckPrev(c, prev, term) == Conflict(None, c.snapIndex + 1)
  {
    SameLookups(whole, c, prev);
  }

  // ----- storing a batch -----

  /** The batch repeats what the whole log has up to `upTo`. */
  ghost predicate NoClashUpTo(whole: Log, prev: nat, entries: Log, upTo: nat) {
    forall k | 0 <= k < |entries| && prev + k < upTo && prev + k < |whole| :: whole[prev + k].term == entries[k].term
  }

  lemma MergeSuffix(whole: Log, snap: nat, prev: nat, entries: Log)
    requires snap <= prev <= |whole|
    ensures |Merge(whole, prev, entries)| >= snap
    ensures Merge(whole[snap..], prev - snap, entries) == Merge(whole, prev, entries)[snap..]
  {
    var r := FirstClash(whole, prev, entries);
    FirstClashUnique(whole[snap..], prev - snap, entries, r);
    hide FirstClash;
    SuffixOfMerge(whole[..prev + r], snap, entries[r..]);
    assert whole[snap..][..prev - snap + r] == whole[..prev + r][snap..];
  }

  lemma SuffixOfMerge(kept: Log, snap: nat, rest: Log)
    requires snap <= |kept|
    ensures (kept + rest)[snap..] == kept[snap..] + rest
  {
  }

  lemma {:induction false} CoveredSkipped(snap: nat, log: Log, prev: nat, entries: Log, k: nat)
    requires Contiguous(prev, entries) && k <= |entries| && prev + k <= snap
    ensures StoreEntries(snap, snap, log, entries) == StoreEntries(snap, snap, log, entries[k..])
    decreases |entries|
  {
    if |entries| == k {
      CoveredNothing(snap, log, prev, entries);
    } else {
      var n := |entries| - 1;
      CoveredSkipped(snap, log, prev, entries[..n], k);
      assert entries[k..][..n - k] == entries[..n][k..];
      assert entries[k..][n - k] == entries[n];
    }
  }

  lemma {:induction false} CoveredNothing(snap: nat, log: Log, prev: nat, entries: Log)
    requires Contiguous(prev, entries) && prev + |entries| <= snap
    ensures StoreEntries(snap, snap, log, entries) == log
    decreases |entries|
  {
    if entries != [] { CoveredNothing(snap, log, prev, entries[..|entries| - 1]); }
  }

  lemma MergeFromLater(whole: Log, prev: nat, entries: Log, k: nat)
    requires k <= |entries| && prev + k <= |whole|
    requires forall j | 0 <= j < k :: whole[prev + j].term == entries[j].term
    ensures Merge(whole, prev, entries) == Merge(whole, prev + k, entries[k..])
  {
    var r := FirstClash(whole, prev + k, entries[k..]);
    forall j | 0 <= j < k + r ensures prev + j < |whole| && whole[prev + j].term == entries[j].term {
      if j >= k { assert entries[k..][j - k] == entries[j]; }
    }
    assert k + r < |entries| ==> entries[k..][r] == entries[k + r];
    FirstClashUnique(whole, prev, entries, k + r);
    assert entries[k..][r..] == entries[k + r..];
  }

  lemma StoreAfterSnapshot(whole: Log, snap: nat, prev: nat, entries: Log)
    requires snap <= prev <= |whole| && Contiguous(prev, entries)
    ensures var whole' := Merge(whole, prev, entries);
            && snap <= |whole'| && whole'[..snap] == whole[..snap]
            && StoreEntries(snap, snap, whole[snap..], entries) == whole'[snap..]
  {
    hide Merge, StoreEntries, Contiguous;
    StoreEntriesIsMerge(snap, whole[snap..], prev - snap, entries);
    MergeSuffix(whole, snap, prev, entries);
    MergeKeepsBefore(whole, prev, entries, snap);
  }

  lemma StoreFromBefore(whole: Log, snap: nat, prev: nat, entries: Log)
    requires prev <= snap <= |whole| && Contiguous(prev, entries) && NoClashUpTo(whole, prev, entries, snap)
    ensures var whole' := Merge(whole, prev, entries);
            && snap <= |whole'| && whole'[..snap] == whole[..snap]
            && StoreEntries(snap, snap, whole[snap..], entries) == whole'[snap..]
  {
    var k := Min(snap - prev, |entries|);
    CoveredSkipped(snap, whole[snap..], prev, entries, k);
    MergeFromLater(whole, prev, entries, k);
    if k == snap - prev {
      SuffixContiguous(prev, entries, k);
      StoreAfterSnapshot(whole, snap, snap, entries[k..]);
    }
  }

  /** With the cut at the right place, storing a batch in the rest of the log is storing it in the
      whole log. */
  lemma StoreRefines(whole: Log, c: Core, prev: nat, entries: Log)
    requires Represents(whole, c) && Contiguous(prev, entries) && prev <= |whole|
    requires NoClashUpTo(whole, prev, entries, c.snapIndex)
    ensures var whole' := Merge(whole, prev, entries);
            && StoreEntries(0, 0, whole, entries) == whole'
            && Represents(whole', c.(log := StoreEntries(c.snapIndex, c.snapIndex, c.log, entries)))
  {
    StoreEntriesIsMerge(0, whole, prev, entries);
    MergeContiguous(0, whole, prev, entries);
    if prev >= c.snapIndex {
      StoreAfterSnapshot(whole, c.snapIndex, prev, entries);
    } else {
      StoreFromBefore(whole, c.snapIndex, prev, entries);
    }
    SameTermAt(whole, Merge(whole, prev, entries), c.snapIndex);
  }

  lemma SameTermAt(a: Log, b: Log, k: nat)
    requires k <= |a| && k <= |b| && a[..k] == b[..k]
    ensures TermAt(a, k) == TermAt(b, k)
  {
    if k > 0 { assert a[k - 1] == a[..k][k - 1]; }
  }

  lemma MergeKeepsBefore(whole: Log, prev: nat, entries: Log, k: nat)
    requires k <= prev <= |whole|
    ensures k <= |Merge(whole, prev, entries)| && Merge(whole, prev, entries)[..k] == whole[..k]
  {
    MergeHolds(whole, prev, entries);
    assert Merge(whole, prev, entries)[..k] == Merge(whole, prev, entries)[..prev][..k];
  }

  /** What a batch repeats is untouched. */
  lemma MergeKeepsRepeated(whole: Log, prev: nat, entries: Log, k: nat)
    requires prev <= |whole| && k <= |whole| && NoClashUpTo(whole, prev, entries, k)
    ensures k <= |Merge(whole, prev, entries)| && Merge(whole, prev, entries)[..k] == whole[..k]
  {
    var r := FirstClash(whole, prev, entries);
    if r < |entries| {
      assert prev + r >= k;
      assert Merge(whole, prev, entries)[..k] == whole[..prev + r][..k];
    }
  }

  // ----- where the source's cut is right -----

  lemma {:induction false} SourceKeepsPosition(snap: nat, log: Log, at: nat, entries: Log, p: nat)
    requires snap > 0 && p < |log| && Contiguous(snap + at, entries) && p < at
    ensures p < |StoreEntries(snap, 0, log, entries)| && StoreEntries(snap, 0, log, entries)[p] == log[p]
    decreases |entries|
  {
    if entries != [] {
      SourceKeepsPosition(snap, log, at, entries[..|entries| - 1], p);
    }
  }

  /** The source's cut of a log behind a snapshot is the right one exactly when there is no snapshot or
      nothing in the batch clashes with the log. */
  lemma CutIsRightIff(snap: nat, log: Log, at: nat, entries: Log)
    requires at <= |log| && Contiguous(snap + at, entries)
    ensures StoreEntries(snap, 0, log, entries) == StoreEntries(snap, snap, log, entries) <==>
            snap == 0 || at + FirstClash(log, at, entries) == |log| || FirstClash(log, at, entries) == |entries|
  {
    StoreEntriesIsMerge(snap, log, at, entries);
    var r := FirstClash(log, at, entries);
    if snap > 0 {
      SourceBeforeClash(snap, log, at, entries, r);
      if r < |entries| && at + r < |log| {
        SourceMissesClash(snap, log, at, entries, r);
        assert Merge(log, at, entries)[at + r] == entries[r..][0];
      } else if r < |entries| {
        SourceAppends(snap, log, at, entries, r);
        assert log[..at + r] == log;
      } else {
        assert entries[..r] == entries;
      }
    }
  }

  /** Up to the first clash nothing is stored. */
  lemma {:induction false} SourceBeforeClash(snap: nat, log: Log, at: nat, entries: Log, n: nat)
    requires at <= |log| && Contiguous(snap + at, entries) && n <= FirstClash(log, at, entries)
    ensures StoreEntries(snap, 0, log, entries[..n]) == log
    decreases n
  {
    if n > 0 {
      SourceBeforeClash(snap, log, at, entries, n - 1);
      assert entries[..n][..n - 1] == entries[..n - 1];
      assert at + (n - 1) < |log| && log[at + (n - 1)].term == entries[n - 1].term;
    }
  }

  lemma {:induction false} SourceAppends(snap: nat, log: Log, at: nat, entries: Log, r: nat)
    requires at + r == |log| && r <= |entries| && Contiguous(snap + at, entries)
    requires StoreEntries(snap, 0, log, entries[..r]) == log
    ensures StoreEntries(snap, 0, log, entries) == log + entries[r..]
    decreases |entries|
  {
    if |entries| == r {
      assert entries[..r] == entries;
    } else {
      var n := |entries| - 1;
      assert entries[..n][..r] == entries[..r];
      SourceAppends(snap, log, at, entries[..n], r);
      assert entries[r..] == entries[..n][r..] + [entries[n]];
      assert StoreEntry(snap, 0, log + entries[..n][r..], entries[n]) == log + entries[..n][r..] + [entries[n]];
      hide StoreEntry;
    }
  }

  /** After a clash the source leaves the clashing entry where it was. */
  lemma {:induction false} SourceMissesClash(snap: nat, log: Log, at: nat, entries: Log, r: nat)
    requires snap > 0 && r < |entries| && at + r < |log| && Contiguous(snap + at, entries)
    requires StoreEntries(snap, 0, log, entries[..r]) == log && log[at + r].term != entries[r].term
    ensures var s := StoreEntries(snap, 0, log, entries); at + r < |s| && s[at + r] == log[at + r]
    decreases |entries|
  {
    var n := |entries| - 1;
    if n > r {
      assert entries[..n][..r] == entries[..r];
      SourceMissesClash(snap, log, at, entries[..n], r);
    }
    SourceKeepsOne(snap, StoreEntries(snap, 0, log, entries[..n]), at + n, entries[n], at + r);
    hide StoreEntry;
  }

  /** Behind a snapshot, storing one entry leaves the positions up to its own. */
  lemma SourceKeepsOne(snap: nat, log: Log, at: nat, e: Entry, p: nat)
    requires snap > 0 && p < |log| && p <= at && e.index == snap + at + 1
    ensures p < |StoreEntry(snap, 0, log, e)| && StoreEntry(snap, 0, log, e)[p] == log[p]
  {
  }
}
