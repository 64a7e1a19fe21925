/** What a node keeps on disk: the contract of src/storage/traits.rs:38-79, by entry index, and the
    in-memory storage of src/storage/memory.rs, by position. */
module Storage {
  import opened Types
  import opened CoreSteps
  import opened Batch

  /** The entries with an index below `high`. */
  function EntriesBelow(log: seq<Entry>, high: nat): seq<Entry> {
    if log == [] then []
    else EntriesBelow(log[..|log| - 1], high) + if log[|log| - 1].index < high then [log[|log| - 1]] else []
  }

  lemma {:induction false} EntriesBelowIsSlice(base: nat, log: seq<Entry>, high: nat)
    requires Contiguous(base, log)
    ensures EntriesBelow(log, high) == log[..Min(if high > base + 1 then high - base - 1 else 0, |log|)]
    decreases |log|
  {
    if log != [] {
      var n := |log| - 1;
      EntriesBelowIsSlice(base, log[..n], high);
      assert log[n].index == base + 1 + n;
      var k := if high > base + 1 then high - base - 1 else 0;
      if k <= n {
        assert log[..n][..k] == log[..k];
      } else {
        assert log[..n] + [log[n]] == log[..|log|];
      }
    }
  }

  /** Cutting keeps exactly the entries below the index. */
  lemma {:induction false} EntriesBelowKeeps(log: seq<Entry>, high: nat)
    ensures forall e :: e in EntriesBelow(log, high) <==> e in log && e.index < high
    decreases |log|
  {
    if log != [] { EntriesBelowKeeps(log[..|log| - 1], high); }
  }

  /** Compacting keeps exactly the entries from the index on. */
  lemma {:induction false} EntriesFromKeeps(log: seq<Entry>, low: nat)
    ensures forall e :: e in EntriesFrom(log, low) <==> e in log && e.index >= low
    decreases |log|
  {
    if log != [] { EntriesFromKeeps(log[..|log| - 1], low); }
  }

  /** Cutting at an index and appending that index goes on with the numbering; so does compacting, from
      the index before. */
  lemma CutsKeepNumbering(base: nat, log: seq<Entry>, e: Entry, before: nat)
    requires Contiguous(base, log) && base < e.index <= base + |log| + 1 && base < before <= base + |log| + 1
    ensures Contiguous(base, EntriesBelow(log, e.index) + [e])
    ensures Contiguous(before - 1, EntriesFrom(log, before))
  {
    EntriesBelowIsSlice(base, log, e.index);
    EntriesFromIsSlice(base, log, before);
    SuffixContiguous(base, log, before - base - 1);
  }

  /** What every storage promises. */
  class Store {
    var term: nat
    var votedFor: Option<nat>
    var log: seq<Entry>
    var snapshot: Option<Snapshot>

    function Disk(): Stored
      reads this
    {
      Stored(term, votedFor, log, snapshot)
    }

    constructor (disk: Stored)
      ensures Disk() == disk
    {
      term, votedFor, log, snapshot := disk.term, disk.votedFor, disk.log, disk.snapshot;
    }

    method SaveTerm(value: nat)
      modifies this`term
      ensures term == value
    {
      term := value;
    }

    method SaveVotedFor(value: Option<nat>)
      modifies this`votedFor
      ensures votedFor == value
    {
      votedFor := value;
    }

    method AppendLogEntries(entries: seq<Entry>)
      modifies this`log
      ensures log == old(log) + entries
    {
      log := log + entries;
    }

    method TruncateLog(fromIndex: nat)
      modifies this`log
      ensures log == EntriesBelow(old(log), fromIndex)
    {
      log := EntriesBelow(log, fromIndex);
    }

    method CompactLog(beforeIndex: nat)
      modifies this`log
      ensures log == EntriesFrom(old(log), beforeIndex)
    {
      log := EntriesFrom(log, beforeIndex);
    }

    method SaveSnapshot(value: Snapshot)
      modifies this`snapshot
      ensures snapshot == Some(value)
    {
      snapshot := Some(value);
    }
  }

  // ----- the in-memory storage -----

  function TruncatedByPosition(log: seq<Entry>, fromIndex: nat): seq<Entry> {
    if fromIndex == 0 then [] else log[..Min(fromIndex - 1, |log|)]
  }

  function CompactedByPosition(log: seq<Entry>, beforeIndex: nat): seq<Entry> {
    if beforeIndex == 0 then [] else log[Min(beforeIndex - 1, |log|)..]
  }

  class MemoryStorage {
    var log: seq<Entry>

    constructor ()
      ensures log == []
    {
      log := [];
    }

    method AppendLogEntries(entries: seq<Entry>)
      modifies this
      ensures log == old(log) + entries
    {
      log := log + entries;
    }

    method TruncateLog(fromIndex: nat)
      modifies this
      ensures log == TruncatedByPosition(old(log), fromIndex)
      ensures Contiguous(0, old(log)) ==> log == EntriesBelow(old(log), fromIndex)
    {
      ghost var was := log;
      if fromIndex > 0 {
        var at := fromIndex - 1;
        if at < |log| {
          log := log[..at];
        }
      } else {
        log := [];
      }
      if Contiguous(0, was) {
        TruncateByPositionIff(0, was, fromIndex);
      }
    }

    method CompactLog(beforeIndex: nat)
      modifies this
      ensures log == CompactedByPosition(old(log), beforeIndex)
      ensures Contiguous(0, old(log)) && beforeIndex > 0 ==> log == EntriesFrom(old(log), beforeIndex)
    {
      ghost var was := log;
      if beforeIndex > 1 {
        var count := beforeIndex - 1;
        if count < |log| {
          log := log[count..];
        } else {
          log := [];
        }
      } else if beforeIndex == 0 {
        log := [];
      }
      if Contiguous(0, was) && beforeIndex > 0 {
        CompactByPositionIff(0, was, beforeIndex);
      }
    }
  }

  /** Cutting by position is cutting by index exactly when the log starts at index 1, or nothing is to be
      cut, or everything, or all of it is kept anyway. */
  lemma {:induction false} TruncateByPositionIff(base: nat, log: seq<Entry>, fromIndex: nat)
    requires Contiguous(base, log)
    ensures TruncatedByPosition(log, fromIndex) == EntriesBelow(log, fromIndex) <==>
            base == 0 || log == [] || fromIndex <= 1 || fromIndex > base + |log|
  {
    EntriesBelowIsSlice(base, log, fromIndex);
    var k := if fromIndex > base + 1 then fromIndex - base - 1 else 0;
    assert |EntriesBelow(log, fromIndex)| == Min(k, |log|);
  }

  /** Dropping by position is dropping by index exactly when the log starts at index 1, or nothing is to
      be dropped, or all of it; index 0, before which there is nothing, clears the log instead. */
  lemma {:induction false} CompactByPositionIff(base: nat, log: seq<Entry>, beforeIndex: nat)
    requires Contiguous(base, log)
    ensures CompactedByPosition(log, beforeIndex) == EntriesFrom(log, beforeIndex) <==>
            log == [] || (beforeIndex > 0 && (base == 0 || beforeIndex == 1 || beforeIndex > base + |log|))
  {
    EntriesFromIsSlice(base, log, beforeIndex);
    var k := if beforeIndex > base + 1 then beforeIndex - base - 1 else 0;
    assert |EntriesFrom(log, beforeIndex)| == |log| - Min(k, |log|);
  }
}
