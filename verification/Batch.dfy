/** What storing a batch does to a log, said without the entry-by-entry loop of
    src/core/raft_core.rs:526-554. */
module Batch {
  import opened Types
  import opened CoreSteps

  /** Number of leading entries of the batch already in the log from position `at` on. */
  function FirstClash(log: seq<Entry>, at: nat, entries: seq<Entry>): (r: nat)
    ensures r <= |entries|
    ensures at <= |log| ==> at + r <= |log|
    ensures forall k | 0 <= k < r :: at + k < |log| && log[at + k].term == entries[k].term
    ensures r < |entries| ==> at + r >= |log| || log[at + r].term != entries[r].term
    decreases |entries|
  {
    if entries != [] && at < |log| && log[at].term == entries[0].term
    then 1 + FirstClash(log, at + 1, entries[1..])
    else 0
  }

  /** The log unchanged if no entry of the batch clashes, else cut at the first clash. */
  function Merge(log: seq<Entry>, at: nat, entries: seq<Entry>): seq<Entry>
    requires at <= |log|
  {
    MergeFrom(log, at, entries, FirstClash(log, at, entries))
  }

  /** The merge once the first clash r is known. */
  function MergeFrom(log: seq<Entry>, at: nat, entries: seq<Entry>, r: nat): seq<Entry>
    requires r <= |entries| && at + r <= |log|
  {
    if r == |entries| then log else log[..at + r] + entries[r..]
  }

  lemma FirstClashUnique(log: seq<Entry>, at: nat, entries: seq<Entry>, r: nat)
    requires r <= |entries|
    requires forall k | 0 <= k < r :: at + k < |log| && log[at + k].term == entries[k].term
    requires r < |entries| ==> at + r >= |log| || log[at + r].term != entries[r].term
    ensures FirstClash(log, at, entries) == r
  {
    var r' := FirstClash(log, at, entries);
    var mine := if r' < |entries| then entries[r'] else Entry(0, 0, "");
    var other := if r < |entries| then entries[r] else Entry(0, 0, "");
  }

  lemma FirstClashOfPrefix(log: seq<Entry>, at: nat, entries: seq<Entry>, n: nat)
    requires n <= |entries|
    ensures FirstClash(log, at, entries[..n]) == Min(n, FirstClash(log, at, entries))
  {
    FirstClashUnique(log, at, entries[..n], Min(n, FirstClash(log, at, entries)));
  }

  /** Put one entry at position p: append it, or replace the rest from a differing term on. */
  function PutAt(log: seq<Entry>, p: nat, e: Entry): seq<Entry>
    requires p <= |log|
  {
    if p < |log| && log[p].term == e.term then log else log[..p] + [e]
  }

  lemma StoreEntryIsPut(snapIndex: nat, log: seq<Entry>, p: nat, e: Entry)
    requires p <= |log| && e.index == snapIndex + p + 1
    ensures StoreEntry(snapIndex, snapIndex, log, e) == PutAt(log, p, e)
  {
    assert p == |log| ==> log[..p] == log;
  }

  lemma MergeFromSnoc(log: seq<Entry>, at: nat, entries: seq<Entry>, r: nat)
    requires entries != [] && r <= |entries| && at + r <= |log|
    requires r == |entries| ==> log[at + r - 1].term == entries[r - 1].term
    requires r == |entries| - 1 ==> at + r == |log| || log[at + r].term != entries[r].term
    ensures var n := |entries| - 1;
            && at + n <= |MergeFrom(log, at, entries[..n], Min(n, r))|
            && MergeFrom(log, at, entries, r)
               == PutAt(MergeFrom(log, at, entries[..n], Min(n, r)), at + n, entries[n])
  {
    var n := |entries| - 1;
    if r < n {
      var m := log[..at + r] + entries[..n][r..];
      assert m[..at + n] == m;
      assert entries[r..] == entries[..n][r..] + [entries[n]];
    } else {
      assert [entries[n]] == entries[n..];
    }
  }

  lemma MergeSnoc(log: seq<Entry>, at: nat, entries: seq<Entry>)
    requires at <= |log| && entries != []
    ensures var n := |entries| - 1;
            && at + n <= |Merge(log, at, entries[..n])|
            && Merge(log, at, entries) == PutAt(Merge(log, at, entries[..n]), at + n, entries[n])
  {
    hide FirstClash, MergeFrom, PutAt;
    var r := FirstClash(log, at, entries);
    FirstClashOfPrefix(log, at, entries, |entries| - 1);
    assert r == |entries| ==> log[at + (r - 1)].term == entries[r - 1].term;
    MergeFromSnoc(log, at, entries, r);
  }

  /** Storing entry by entry, with cuts at the right offset, is one merge. */
  lemma {:induction false} StoreEntriesIsMerge(snapIndex: nat, log: seq<Entry>, at: nat, entries: seq<Entry>)
    requires at <= |log|
    requires Contiguous(snapIndex + at, entries)
    ensures StoreEntries(snapIndex, snapIndex, log, entries) == Merge(log, at, entries)
    decreases |entries|
  {
    if entries != [] {
      var n := |entries| - 1;
      var m := Merge(log, at, entries[..n]);
      StoreEntriesIsMerge(snapIndex, log, at, entries[..n]);
      MergeSnoc(log, at, entries);
      StoreEntryIsPut(snapIndex, m, at + n, entries[n]);
    }
  }

  lemma MergeContiguous(base: nat, log: seq<Entry>, at: nat, entries: seq<Entry>)
    requires at <= |log| && Contiguous(base, log) && Contiguous(base + at, entries)
    ensures Contiguous(base, Merge(log, at, entries))
  {
    var r, m := FirstClash(log, at, entries), Merge(log, at, entries);
    if r < |entries| {
      forall k | 0 <= k < |m| ensures m[k].index == base + 1 + k {
        if k >= at + r { assert m[k] == entries[k - at]; }
      }
    }
  }

  /** The batch ends up in the log, the log never gets shorter than the batch reaches, and what is
      before the batch is untouched. */
  lemma MergeHolds(log: seq<Entry>, at: nat, entries: seq<Entry>)
    requires at <= |log|
    ensures var m := Merge(log, at, entries);
            && |m| >= at + |entries|
            && m[..at] == log[..at]
            && (forall k | 0 <= k < |entries| :: m[at + k].term == entries[k].term)
  {
    var r := FirstClash(log, at, entries);
    var m := Merge(log, at, entries);
    if r < |entries| {
      forall k | 0 <= k < |entries| ensures m[at + k].term == entries[k].term {
        if k >= r { assert m[at + k] == entries[r..][k - r]; }
      }
    }
  }

  /** Storing the same batch again, or any earlier part of it, changes nothing. */
  lemma MergeAgain(log: seq<Entry>, at: nat, entries: seq<Entry>, n: nat)
    requires at <= |log| && n <= |entries|
    ensures at <= |Merge(log, at, entries)|
    ensures Merge(Merge(log, at, entries), at, entries[..n]) == Merge(log, at, entries)
  {
    MergeHolds(log, at, entries);
    FirstClashUnique(Merge(log, at, entries), at, entries[..n], n);
  }

  /** The old tail survives exactly when nothing in the batch clashes with the log. */
  lemma MergeKeepsTailIff(log: seq<Entry>, at: nat, entries: seq<Entry>)
    requires at + |entries| <= |log|
    ensures Merge(log, at, entries) == log
       <==> forall k | 0 <= k < |entries| :: log[at + k].term == entries[k].term
  {
    var r := FirstClash(log, at, entries);
    if r < |entries| {
      assert Merge(log, at, entries)[at + r] == entries[r..][0] == entries[r];
    }
  }

  // ----- filters by index are slices on a contiguous log -----

  lemma {:induction false} EntriesFromIsSlice(base: nat, log: seq<Entry>, low: nat)
    requires Contiguous(base, log)
    ensures EntriesFrom(log, low) == log[Min(if low > base + 1 then low - base - 1 else 0, |log|)..]
    decreases |log|
  {
    if log != [] {
      var n := |log| - 1;
      EntriesFromIsSlice(base, log[..n], low);
      var k := Min(if low > base + 1 then low - base - 1 else 0, |log|);
      if k <= n {
        assert log[k..] == log[..n][k..] + [log[n]];
      }
    }
  }

  lemma {:induction false} EntriesUpToAll(base: nat, log: seq<Entry>, high: nat)
    requires Contiguous(base, log) && base + |log| <= high
    ensures EntriesUpTo(log, high) == log
    decreases |log|
  {
    if log != [] {
      EntriesUpToAll(base, log[..|log| - 1], high);
      assert log == log[..|log| - 1] + [log[|log| - 1]];
    }
  }

  lemma SuffixContiguous(base: nat, log: seq<Entry>, k: nat)
    requires Contiguous(base, log) && k <= |log|
    ensures Contiguous(base + k, log[k..])
  {
    forall j | 0 <= j < |log[k..]| ensures log[k..][j].index == base + k + 1 + j {
      assert log[k..][j] == log[k + j];
    }
  }

  lemma Suffix(log: seq<Entry>, k: nat)
    requires Contiguous(0, log) && k <= |log|
    ensures EntriesFrom(log, k + 1) == log[k..] == EntriesUpTo(log[k..], |log|)
  {
    EntriesFromIsSlice(0, log, k + 1);
    SuffixContiguous(0, log, k);
    EntriesUpToAll(k, log[k..], |log|);
  }
}
