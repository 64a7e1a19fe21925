/** Storage and memory while a batch is stored (src/core/raft_core.rs:261-273, 527-554). The memory is cut
    by position, as if there were no snapshot, and the storage by index: with the exact condition under
    which the two stay equal, and the log numbered. */
module Mirror {
  import opened Types
  import opened CoreSteps
  import opened Batch
  import opened Storage

  // ----- the disk's side of storing -----

  /** The stored log after the log m in memory was asked to be cut at an index. */
  function DiskCut(m: seq<Entry>, d: seq<Entry>, fromIndex: nat): seq<Entry>
    requires fromIndex > 0
  {
    if fromIndex - 1 < |m| then EntriesBelow(d, fromIndex) else d
  }

  function DiskEntry(snapIndex: nat, m: seq<Entry>, d: seq<Entry>, e: Entry): seq<Entry> {
    if e.index <= snapIndex then d
    else
      var k := e.index - snapIndex - 1;
      if k < |m| then if m[k].term != e.term then DiskCut(m, d, e.index) + [e] else d
      else d + [e]
  }

  function DiskEntries(snapIndex: nat, m: seq<Entry>, d: seq<Entry>, entries: seq<Entry>): seq<Entry>
    decreases |entries|
  {
    if entries == [] then d
    else
      var before := entries[..|entries| - 1];
      DiskEntry(snapIndex, StoreEntries(snapIndex, 0, m, before), DiskEntries(snapIndex, m, d, before),
                entries[|entries| - 1])
  }

  // ----- one cut -----

  /** The two cuts leave the same log exactly when there is no snapshot or nothing is cut in memory. */
  lemma CutsAgreeIff(snapIndex: nat, log: seq<Entry>, index: nat)
    requires Contiguous(snapIndex, log) && snapIndex < index <= snapIndex + |log|
    ensures CutLog(0, log, index) == DiskCut(log, log, index) <==> snapIndex == 0 || index > |log|
  {
    EntriesBelowIsSlice(snapIndex, log, index);
  }

  /** Entries 2 to 4 behind a snapshot of entry 1, cut at 3: the disk keeps entry 2, the memory 2 and 3. */
  lemma CutsApart(a: Entry, b: Entry, c: Entry)
    requires a.index == 2 && b.index == 3 && c.index == 4
    ensures CutLog(0, [a, b, c], 3) == [a, b] && DiskCut([a, b, c], [a, b, c], 3) == [a]
  {
    EntriesBelowIsSlice(1, [a, b, c], 3);
  }

  // ----- a batch -----

  predicate ClashAt(snapIndex: nat, log: seq<Entry>, e: Entry) {
    snapIndex < e.index <= snapIndex + |log| && log[e.index - snapIndex - 1].term != e.term
  }

  /** Some entry of the batch differs in term from the log's at its index. */
  predicate Clashes(snapIndex: nat, log: seq<Entry>, entries: seq<Entry>) {
    exists k :: 0 <= k < |entries| && ClashAt(snapIndex, log, entries[k])
  }

  /** Some entry does so where the memory, cut by position, loses something. */
  predicate CutsMemory(snapIndex: nat, log: seq<Entry>, entries: seq<Entry>) {
    exists k :: 0 <= k < |entries| && ClashAt(snapIndex, log, entries[k]) && entries[k].index <= |log|
  }

  /** Nothing has clashed: memory and disk are equal and go on from the old log. */
  predicate Clean(snapIndex: nat, log: seq<Entry>, m: seq<Entry>, d: seq<Entry>, upTo: nat) {
    m == d && Contiguous(snapIndex, m) && log <= m && (m == log || snapIndex + |m| == upTo)
  }

  predicate Misnumbered(snapIndex: nat, m: seq<Entry>) { exists p :: 0 <= p < |m| && m[p].index != snapIndex + 1 + p }

  /** Behind a snapshot something has clashed: an entry sits at a wrong place and nothing is cut any more. */
  predicate Torn(snapIndex: nat, log: seq<Entry>, m: seq<Entry>, d: seq<Entry>, upTo: nat, cut: bool) {
    && |m| <= upTo && Misnumbered(snapIndex, m)
    && (if cut then |m| == |d| + snapIndex else m == d && |log| < upTo)
  }

  /** Every index up to the last is backed by a position. */
  predicate Backed(snapIndex: nat, m: seq<Entry>, upTo: nat) {
    upTo <= snapIndex + |m| && (m != [] ==> m[|m| - 1].index <= snapIndex + |m|)
  }

  /** Memory m and disk d after the part of a batch that ends at index `upTo`, both having been `log`. */
  predicate PartStored(snapIndex: nat, log: seq<Entry>, m: seq<Entry>, d: seq<Entry>, upTo: nat, part: seq<Entry>) {
    && Backed(snapIndex, m, upTo)
    && (snapIndex == 0 ==> m == d && Contiguous(0, m))
    && (if !Clashes(snapIndex, log, part) then Clean(snapIndex, log, m, d, upTo)
        else snapIndex > 0 ==> Torn(snapIndex, log, m, d, upTo, CutsMemory(snapIndex, log, part)))
  }

  lemma PartGrows(snapIndex: nat, log: seq<Entry>, part: seq<Entry>, e: Entry)
    ensures Clashes(snapIndex, log, part + [e]) <==> Clashes(snapIndex, log, part) || ClashAt(snapIndex, log, e)
    ensures CutsMemory(snapIndex, log, part + [e]) <==>
            CutsMemory(snapIndex, log, part) || (ClashAt(snapIndex, log, e) && e.index <= |log|)
    ensures CutsMemory(snapIndex, log, part) ==> Clashes(snapIndex, log, part)
  {
    var longer := part + [e];
    assert longer[|part|] == e;
    assert forall k | 0 <= k < |part| :: longer[k] == part[k];
  }

  lemma PlainStep(m: seq<Entry>, e: Entry, upTo: nat)
    requires Contiguous(0, m) && upTo <= |m| && e.index == upTo + 1
    ensures var m' := StoreEntry(0, 0, m, e); m' == DiskEntry(0, m, m, e) && Contiguous(0, m') && upTo + 1 <= |m'|
  {
    if e.index <= |m| { CutsAgreeIff(0, m, e.index); }
  }

  lemma CleanStep(snapIndex: nat, log: seq<Entry>, m: seq<Entry>, upTo: nat, e: Entry)
    requires Clean(snapIndex, log, m, m, upTo) && upTo <= snapIndex + |m| && e.index == upTo + 1
    requires !ClashAt(snapIndex, log, e)
    ensures var m' := StoreEntry(snapIndex, 0, m, e);
            Clean(snapIndex, log, m', DiskEntry(snapIndex, m, m, e), upTo + 1) && upTo + 1 <= snapIndex + |m'|
  {
  }

  lemma FirstClashTears(snapIndex: nat, log: seq<Entry>, m: seq<Entry>, upTo: nat, e: Entry)
    requires Contiguous(snapIndex, log) && Clean(snapIndex, log, m, m, upTo) && e.index == upTo + 1
    requires snapIndex > 0 && ClashAt(snapIndex, log, e)
    ensures var m' := StoreEntry(snapIndex, 0, m, e);
            && Torn(snapIndex, log, m', DiskEntry(snapIndex, m, m, e), upTo + 1, e.index <= |log|)
            && Backed(snapIndex, m', upTo + 1)
  {
    var m' := StoreEntry(snapIndex, 0, m, e);
    EntriesBelowIsSlice(snapIndex, log, e.index);
    assert m == log;
    var p := |m'| - 1;
    assert m'[p] == e && e.index != snapIndex + 1 + p;
  }

  lemma TornStep(snapIndex: nat, log: seq<Entry>, m: seq<Entry>, d: seq<Entry>, upTo: nat, cut: bool, e: Entry)
    requires Torn(snapIndex, log, m, d, upTo, cut) && Backed(snapIndex, m, upTo) && e.index == upTo + 1
    ensures var m' := StoreEntry(snapIndex, 0, m, e);
            && Torn(snapIndex, log, m', DiskEntry(snapIndex, m, d, e), upTo + 1, cut)
            && Backed(snapIndex, m', upTo + 1)
  {
    var m' := StoreEntry(snapIndex, 0, m, e);
    assert m' == m || m' == m + [e];
    var p :| 0 <= p < |m| && m[p].index != snapIndex + 1 + p;
    assert m'[p] == m[p];
  }

  /** One more entry. */
  lemma StoredStep(snapIndex: nat, log: seq<Entry>, m: seq<Entry>, d: seq<Entry>, upTo: nat, part: seq<Entry>, e: Entry)
    requires Contiguous(snapIndex, log) && PartStored(snapIndex, log, m, d, upTo, part) && e.index == upTo + 1
    ensures PartStored(snapIndex, log, StoreEntry(snapIndex, 0, m, e), DiskEntry(snapIndex, m, d, e), upTo + 1,
                       part + [e])
  {
    PartGrows(snapIndex, log, part, e);
    if snapIndex == 0 { PlainStep(m, e, upTo); }
    if Clashes(snapIndex, log, part) {
      if snapIndex > 0 { TornStep(snapIndex, log, m, d, upTo, CutsMemory(snapIndex, log, part), e); }
    } else if ClashAt(snapIndex, log, e) {
      if snapIndex > 0 { FirstClashTears(snapIndex, log, m, upTo, e); }
    } else {
      CleanStep(snapIndex, log, m, upTo, e);
    }
    hide StoreEntry, DiskEntry, Clashes, CutsMemory, Misnumbered;
  }

  lemma {:induction false} BatchStored(snapIndex: nat, log: seq<Entry>, prev: nat, entries: seq<Entry>)
    requires Contiguous(snapIndex, log) && prev <= snapIndex + |log| && Contiguous(prev, entries)
    ensures PartStored(snapIndex, log, StoreEntries(snapIndex, 0, log, entries),
                       DiskEntries(snapIndex, log, log, entries), prev + |entries|, entries)
    decreases |entries|
  {
    if entries != [] {
      var n := |entries| - 1;
      BatchStored(snapIndex, log, prev, entries[..n]);
      StoredStep(snapIndex, log, StoreEntries(snapIndex, 0, log, entries[..n]),
                 DiskEntries(snapIndex, log, log, entries[..n]), prev + n, entries[..n], entries[n]);
      assert entries == entries[..n] + [entries[n]];
    }
  }

  /** A batch leaves memory and disk equal exactly when there is no snapshot or it clashes nowhere that the
      memory, cut by position, loses something; and the memory numbered exactly when there is no
      snapshot or it does not clash at all. */
  lemma BatchMirrorIff(snapIndex: nat, log: seq<Entry>, prev: nat, entries: seq<Entry>)
    requires Contiguous(snapIndex, log) && prev <= snapIndex + |log| && Contiguous(prev, entries)
    ensures var m, d := StoreEntries(snapIndex, 0, log, entries), DiskEntries(snapIndex, log, log, entries);
            && (m == d <==> snapIndex == 0 || !CutsMemory(snapIndex, log, entries))
            && (Contiguous(snapIndex, m) <==> snapIndex == 0 || !Clashes(snapIndex, log, entries))
  {
    BatchStored(snapIndex, log, prev, entries);
    PartGrows(snapIndex, log, entries, Entry(0, 0, []));
  }

  /** How long the log is after a batch that leaves it numbered. */
  lemma BatchReach(snapIndex: nat, log: seq<Entry>, prev: nat, entries: seq<Entry>)
    requires Contiguous(snapIndex, log) && prev <= snapIndex + |log| && Contiguous(prev, entries)
    requires snapIndex == 0 || !Clashes(snapIndex, log, entries)
    ensures var m := StoreEntries(snapIndex, 0, log, entries);
            snapIndex + |m| == if Clashes(snapIndex, log, entries) then prev + |entries|
            else Max(snapIndex + |log|, prev + |entries|)
  {
    if Clashes(snapIndex, log, entries) {
      ClashReach(log, prev, entries);
    } else {
      BatchStored(snapIndex, log, prev, entries);
    }
  }

  lemma ClashReach(log: seq<Entry>, prev: nat, entries: seq<Entry>)
    requires Contiguous(0, log) && prev <= |log| && Contiguous(prev, entries) && Clashes(0, log, entries)
    ensures |StoreEntries(0, 0, log, entries)| == prev + |entries|
  {
    StoreEntriesIsMerge(0, log, prev, entries);
    hide StoreEntries;
    var k :| 0 <= k < |entries| && ClashAt(0, log, entries[k]);
    assert log[prev + k].term != entries[k].term;
  }

  // ----- a batch past the end of the log -----

  /** A batch that begins past the end of the log is put right behind it, at positions below its indices. */
  lemma {:induction false} GapAppends(snapIndex: nat, base: nat, log: seq<Entry>, disk: seq<Entry>, g: nat,
                                      entries: seq<Entry>)
    requires Contiguous(g, entries) && g > snapIndex + |log| && base <= snapIndex
    ensures StoreEntries(snapIndex, 0, log, entries) == StoreEntries(snapIndex, base, log, entries) == log + entries
    ensures DiskEntries(snapIndex, log, disk, entries) == disk + entries
    decreases |entries|
  {
    if entries != [] {
      var n := |entries| - 1;
      GapAppends(snapIndex, base, log, disk, g, entries[..n]);
      assert entries == entries[..n] + [entries[n]];
    }
  }

  lemma GapBreaksNumbering(snapIndex: nat, log: seq<Entry>, g: nat, entries: seq<Entry>)
    requires Contiguous(g, entries) && g > snapIndex + |log| && entries != []
    ensures !Contiguous(snapIndex, log + entries) && (log + entries)[|log|] == entries[0]
  {
    assert (log + entries)[|log|] == entries[0];
  }

  lemma NothingStored(snapIndex: nat, log: seq<Entry>)
    ensures StoreEntries(snapIndex, 0, log, []) == log == DiskEntries(snapIndex, log, log, [])
    ensures !Clashes(snapIndex, log, [])
  {
  }
}
