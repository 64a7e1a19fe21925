/** The node of src/core/raft_core.rs as it works: fields updated in place, every persistent one written
    to storage at once. Each handler is proved to compute its function in CoreSteps and to leave the
    storage equal to the memory. */
module RaftCore {
  import opened Types
  import opened CoreSteps
  import opened Batch
  import opened Applying
  import opened Storage
  import opened Mirror
  import KvStore

  // ----- what handlers return and write -----

  /** The entries after `from` up to `upTo`, with what the state machine answers to each. */
  function Outcomes(snapIndex: nat, log: seq<Entry>, data: Data, from: nat, upTo: nat): seq<(nat, KvStore.Outcome)>
    decreases upTo - from
  {
    if from < upTo && snapIndex <= from < snapIndex + |log| then
      var (data', outcome) := KvStore.ApplyCommand(data, log[from - snapIndex].command);
      [(from + 1, outcome)] + Outcomes(snapIndex, log, data', from + 1, upTo)
    else []
  }

  /** What applying everything committed answers. */
  function ApplyResults(c: Core): seq<(nat, KvStore.Outcome)> {
    Outcomes(c.snapIndex, c.log, c.data, c.applied, c.commit)
  }

  /** The node's memory, `disk` being the storage's content. */
  predicate MirroredBy(c: Core, disk: Stored) {
    && disk.term == c.term && disk.votedFor == c.votedFor && disk.log == c.log
    && c.snapIndex == (if disk.snapshot.Some? then disk.snapshot.value.lastIndex else 0)
    && c.snapTerm == (if disk.snapshot.Some? then disk.snapshot.value.lastTerm else 0)
  }

  /** The storage after a snapshot was saved and the log compacted. */
  function CompactedDisk(disk: Stored, c: Core): Stored {
    disk.(log := EntriesFrom(disk.log, c.snapIndex + 1), snapshot := Some(Snapshot(c.snapIndex, c.snapTerm, c.data)))
  }

  predicate Ordered(c: Core) {
    Contiguous(c.snapIndex, c.log) && c.snapIndex <= c.applied <= c.commit <= c.snapIndex + |c.log|
  }

  /** The batch begins past the end of the log. */
  predicate Gap(c: Core, req: AppendArgs) { req.entries != [] && Start(req) > c.snapIndex + |c.log| }

  /** The accepted batch leaves the storage equal to the memory, the log numbered and the indices in
      order: it meets or follows the log, behind a snapshot it clashes with nothing, and a clash does
      not cut the log below what is committed or, if the commit index moves, applied. */
  predicate Survives(c: Core, req: AppendArgs) {
    var clashes := Clashes(c.snapIndex, c.log, req.entries);
    && !Gap(c, req)
    && (clashes ==> c.snapIndex == 0)
    && (clashes ==> (if req.leaderCommit > c.commit then c.applied else c.commit) <= Start(req) + |req.entries|)
  }

  /** The commit index moves to an index for which there is no position: the entries of a batch with a gap
      lie lower than their indices say. */
  predicate Panics(c: Core, req: AppendArgs) {
    && Gap(c, req)
    && req.leaderCommit > c.commit
    && Min(req.leaderCommit, Start(req) + |req.entries|) > c.snapIndex + |c.log| + |req.entries|
  }

  /** The same where a snapshot of all that is then applied is taken in the same call: it may take with it
      whatever the two logs differ in. */
  predicate SurvivesCompaction(c: Core, req: AppendArgs) {
    var m := StoreEntries(c.snapIndex, 0, c.log, req.entries);
    var d := DiskEntries(c.snapIndex, c.log, c.log, req.entries);
    RestSurvives(c.applied, Min(req.leaderCommit, LastLogIndex(c.(log := m))), m, d)
  }

  predicate RestSurvives(applied: nat, commit: nat, m: seq<Entry>, d: seq<Entry>) {
    var rest := EntriesFrom(m, commit + 1);
    applied <= commit && rest == EntriesFrom(d, commit + 1) && Contiguous(commit, rest)
  }

  /** Behind a snapshot a clash that nothing cuts can leave a node valid, the clashing entry gone into the
      next snapshot, and the state machine with the old entry at its index. */
  lemma ClashCompactedAway(id: nat, peers: seq<nat>, data: Data)
    ensures var old2, old3, new3 := Entry(1, 2, "a"), Entry(1, 3, "b"), Entry(2, 3, "c");
            var c := Boot(id, peers, Stored(2, None, [old2, old3], Some(Snapshot(1, 1, data))), 1);
            var req := AppendArgs(2, 9, 2, 1, [new3], 3);
            var (c', result) := CoreSteps.HandleAppendEntries(AsWritten, c, req);
            && Ordered(c) && Numbered(req) && result.success && !Survives(c, req) && SurvivesCompaction(c, req)
            && c'.snapIndex == 3 && c'.snapTerm == 1 && c'.log == []
  {
    var old2, old3, new3 := Entry(1, 2, "a"), Entry(1, 3, "b"), Entry(2, 3, "c");
    var c := Boot(id, peers, Stored(2, None, [old2, old3], Some(Snapshot(1, 1, data))), 1);
    var req := AppendArgs(2, 9, 2, 1, [new3], 3);
    var log := [old2, old3, new3];
    assert ClashAt(1, c.log, new3);
    OneStored(old2, old3, new3);
    TwoApplied(c.(log := log, commit := 3));
    assert AcceptEntries(AsWritten, c, req) == ApplyCommitted(c.(log := log, commit := 3));
    hide StoreEntries, DiskEntries, EntriesFrom, ApplyCommitted, ApplyUpTo, AcceptEntriesAt;
  }

  lemma OneStored(old2: Entry, old3: Entry, new3: Entry)
    requires new3.index == 3 && old3.term != new3.term && old2.index == 2 && old3.index == 3
    ensures var log := [old2, old3, new3];
            && StoreEntries(1, 0, [old2, old3], [new3]) == log == DiskEntries(1, [old2, old3], [old2, old3], [new3])
            && EntriesFrom(log, 4) == []
  {
    assert [new3][..0] == [];
    assert [old2, old3] + [new3] == [old2, old3, new3];
    assert [old2, old3, new3][..2] == [old2, old3] && [old2, old3][..1] == [old2];
    assert [old2][..0] == [] && EntriesFrom([old2], 4) == [];
    assert EntriesFrom([old2, old3], 4) == [];
  }

  lemma TwoApplied(c: Core)
    requires |c.log| == 3 && c.log[1].term == 1 && c.snapIndex == c.applied == 1 && c.commit == 3 && c.threshold == 1
    requires EntriesFrom(c.log, 4) == []
    ensures var c' := ApplyCommitted(c); c'.snapIndex == 3 && c'.snapTerm == 1 && c'.log == []
  {
    hide KvStore.ApplyCommand, ApplyUpTo, EntriesFrom;
    ApplyUpToUnfolds(c);
    var c1 := Applied(c, c.log[0]);
    ApplyUpToUnfolds(c1);
    ApplyUpToUnfolds(Applied(c1, c.log[1]));
  }

  // ----- lemmas for the loops -----

  lemma StoreEntriesStep(snapIndex: nat, log: seq<Entry>, entries: seq<Entry>, i: nat)
    requires i < |entries|
    ensures StoreEntries(snapIndex, 0, log, entries[..i + 1])
         == StoreEntry(snapIndex, 0, StoreEntries(snapIndex, 0, log, entries[..i]), entries[i])
  {
    assert entries[..i + 1][..i] == entries[..i];
  }

  lemma DiskEntriesStep(snapIndex: nat, log: seq<Entry>, disk: seq<Entry>, entries: seq<Entry>, i: nat)
    requires i < |entries|
    ensures DiskEntries(snapIndex, log, disk, entries[..i + 1])
         == DiskEntry(snapIndex, StoreEntries(snapIndex, 0, log, entries[..i]),
                      DiskEntries(snapIndex, log, disk, entries[..i]), entries[i])
  {
    assert entries[..i + 1][..i] == entries[..i];
  }

  lemma KeptContiguous(snapIndex: nat, log: seq<Entry>, k: nat)
    requires Contiguous(snapIndex, log) && k >= snapIndex
    ensures Contiguous(k, EntriesFrom(log, k + 1))
    ensures |EntriesFrom(log, k + 1)| == if k <= snapIndex + |log| then snapIndex + |log| - k else 0
  {
    EntriesFromIsSlice(snapIndex, log, k + 1);
    if k <= snapIndex + |log| { SuffixContiguous(snapIndex, log, k - snapIndex); }
  }

  /** Storing the batch and moving the commit index: whether all of it can be applied, and when the node
      stays valid. */
  lemma BatchSurvives(c: Core, req: AppendArgs)
    requires Ordered(c) && Numbered(req)
    ensures var m := StoreEntries(c.snapIndex, 0, c.log, req.entries);
            var d := DiskEntries(c.snapIndex, c.log, c.log, req.entries);
            var last := LastLogIndex(c.(log := m));
            var commit := if req.leaderCommit > c.commit then Min(req.leaderCommit, last) else c.commit;
            && (req.leaderCommit > c.commit ==>
                  (Applicable(c.(log := m, commit := commit)) <==> !Panics(c, req)))
            && (Survives(c, req) <==>
                m == d && Contiguous(c.snapIndex, m) && c.applied <= commit <= c.snapIndex + |m|)
  {
    var g := Start(req);
    hide StoreEntries, DiskEntries, Clashes, CutsMemory;
    if Gap(c, req) {
      GapAppends(c.snapIndex, 0, c.log, c.log, g, req.entries);
      GapBreaksNumbering(c.snapIndex, c.log, g, req.entries);
    } else if req.entries == [] {
      NothingStored(c.snapIndex, c.log);
    } else {
      MeetingBatchSurvives(c, req);
    }
  }

  lemma MeetingBatchSurvives(c: Core, req: AppendArgs)
    requires Ordered(c) && Numbered(req) && !Gap(c, req) && req.entries != []
    ensures var m := StoreEntries(c.snapIndex, 0, c.log, req.entries);
            var d := DiskEntries(c.snapIndex, c.log, c.log, req.entries);
            var last := LastLogIndex(c.(log := m));
            var commit := if req.leaderCommit > c.commit then Min(req.leaderCommit, last) else c.commit;
            && last <= c.snapIndex + |m|
            && (Survives(c, req) <==>
                m == d && Contiguous(c.snapIndex, m) && c.applied <= commit <= c.snapIndex + |m|)
  {
    var g := Start(req);
    BatchStored(c.snapIndex, c.log, g, req.entries);
    BatchMirrorIff(c.snapIndex, c.log, g, req.entries);
    hide StoreEntries, DiskEntries, Clashes, CutsMemory;
    if c.snapIndex == 0 || !Clashes(c.snapIndex, c.log, req.entries) {
      BatchReach(c.snapIndex, c.log, g, req.entries);
    }
  }

  /** A batch that clashes below what is applied leaves the commit index behind `applied`. */
  lemma CommitFallsBehind(id: nat, peers: seq<nat>, data: Data)
    ensures var e1, e2, x := Entry(1, 1, "a"), Entry(1, 2, "b"), Entry(2, 1, "c");
            var c := Boot(id, peers, Stored(1, None, [e1, e2], None), 0).(commit := 2, applied := 2, data := data);
            var c' := CoreSteps.AcceptEntries(AsWritten, c, AppendArgs(2, 9, 0, 0, [x], 3));
            Ordered(c) && c'.log == [x] && c'.commit == 1 < c'.applied == 2
  {
    hide KvStore.ApplyCommand;
    var e1, e2, x := Entry(1, 1, "a"), Entry(1, 2, "b"), Entry(2, 1, "c");
    var c := Boot(id, peers, Stored(1, None, [e1, e2], None), 0).(commit := 2, applied := 2, data := data);
    StoresOnly(e1, e2, x);
    hide StoreEntries;
    var c1 := c.(log := [x], commit := 1);
    NothingLeft(c1);
    hide ApplyUpTo, ApplyResults;
    assert ApplyCommitted(c1) == c1;
    hide ApplyCommitted;
  }

  lemma StoresOnly(e1: Entry, e2: Entry, x: Entry)
    requires x.index == 1 && e1.term != x.term
    ensures StoreEntries(0, 0, [e1, e2], [x]) == [x]
  {
    assert [x][..0] == [] && [e1, e2][..0] == [];
  }

  /** The map after one insertion for each key. */
  function Inserted(m: map<nat, nat>, keys: seq<nat>, value: nat): map<nat, nat> {
    if keys == [] then m else Inserted(m, keys[..|keys| - 1], value)[keys[|keys| - 1] := value]
  }

  lemma {:induction false} InsertedIs(m: map<nat, nat>, keys: seq<nat>, value: nat)
    ensures Inserted(m, keys, value) == WithEach(m, keys, value)
    decreases |keys|
  {
    if keys != [] {
      InsertedIs(m, keys[..|keys| - 1], value);
      assert keys == keys[..|keys| - 1] + [keys[|keys| - 1]];
    }
  }

  /** One round of applying: the next entry is there exactly if positions reach that far; if all entries are
      there after it, they were before. */
  lemma NextIsThere(c: Core)
    requires c.applied < c.commit
    ensures var e := GetEntry(c, c.applied + 1);
            && (e.None? ==> !Applicable(c) && ApplyUpTo(c) == c.(applied := c.applied + 1) && ApplyResults(c) == [])
            && (e.Some? ==>
                  && (Applicable(Applied(c, e.value)) <==> Applicable(c))
                  && ApplyUpTo(c) == ApplyUpTo(Applied(c, e.value))
                  && ApplyResults(c) == [ResultOf(c, e.value)] + ApplyResults(Applied(c, e.value)))
  {
    hide KvStore.ApplyCommand, ApplyUpTo;
    ApplyUpToUnfolds(c);
  }

  function ResultOf(c: Core, e: Entry): (nat, KvStore.Outcome) {
    (c.applied + 1, KvStore.ApplyCommand(c.data, e.command).1)
  }

  lemma AppliedKeepsRest(c: Core)
    ensures forall e :: Applied(c, e).commit == c.commit && Applied(c, e).applied == c.applied + 1
  {
  }

  lemma Append<T>(a: seq<T>, b: T, rest: seq<T>)
    ensures a + ([b] + rest) == a + [b] + rest
  {
  }

  lemma Listening(c: Core, req: AppendArgs)
    ensures var c' := StepDown(c, req.term).(role := Follower);
            && Survives(c', req) == Survives(c, req) && Panics(c', req) == Panics(c, req)
            && SurvivesCompaction(c', req) == SurvivesCompaction(c, req)
  {
    hide StoreEntries, DiskEntries, Clashes;
  }

  lemma Following(c: Core, disk: Stored)
    requires MirroredBy(c, disk) && Ordered(c)
    ensures MirroredBy(c.(role := Follower), disk) && Ordered(c.(role := Follower))
  {
  }

  lemma NothingLeft(c: Core)
    requires c.applied >= c.commit
    ensures ApplyUpTo(c) == c && ApplyResults(c) == [] && Applicable(c)
  {
  }

  lemma ValidIsApplicable(c: Core)
    ensures Ordered(c) ==> Applicable(c)
  {
  }

  lemma TakenIsOrdered(c: Core)
    requires Ordered(c) && TakeSnapshot(c).Some?
    ensures Ordered(TakeSnapshot(c).value)
  {
    KeptContiguous(c.snapIndex, c.log, c.applied);
  }

  /** The node with a newer snapshot in place of the state machine and the log up to it. */
  function Taken(c: Core, s: Snapshot): Core {
    c.(snapIndex := s.lastIndex, snapTerm := s.lastTerm, log := EntriesFrom(c.log, s.lastIndex + 1),
    commit := Max(c.commit, s.lastIndex), applied := Max(c.applied, s.lastIndex), data := s.data)
  }

  lemma TakenInIsValid(c: Core, disk: Stored, s: Snapshot)
    requires Ordered(c) && MirroredBy(c, disk) && s.lastIndex > c.snapIndex
    ensures Ordered(Taken(c, s))
    ensures MirroredBy(Taken(c, s), disk.(log := EntriesFrom(disk.log, s.lastIndex + 1), snapshot := Some(s)))
  {
    KeptContiguous(c.snapIndex, c.log, s.lastIndex);
  }

  lemma LastIndexIs(c: Core)
    requires Contiguous(c.snapIndex, c.log)
    ensures LastLogIndex(c) == c.snapIndex + |c.log|
  {
  }

  // ----- the node -----

  class RaftCore {
    const id: nat
    const peers: seq<nat>
    const storage: Store
    const machine: KvStore.KeyValueStore
    var term: nat
    var votedFor: Option<nat>
    var log: seq<Entry>
    var snapIndex: nat
    var snapTerm: nat
    var commit: nat
    var applied: nat
    var next: map<nat, nat>
    var acked: map<nat, nat>
    var role: Role
    var votes: seq<nat>
    var threshold: nat

    function State(): Core
      reads this, machine
    {
      Core(id, peers, term, votedFor, log, snapIndex, snapTerm, commit, applied, next, acked, role, votes,
           threshold, machine.data)
    }

    /** Storage mirrors memory, and the indices are in order. */
    ghost predicate Valid()
      reads this, storage, machine
    {
      MirroredBy(State(), storage.Disk()) && Ordered(State())
    }

    /** Starts from what the storage holds, whatever that is. */
    constructor (id: nat, peers: seq<nat>, storage: Store, machine: KvStore.KeyValueStore)
      requires machine.data == map[]
      modifies machine
      ensures this.id == id && this.peers == peers && this.storage == storage && this.machine == machine
      ensures State() == Boot(id, peers, storage.Disk(), 1000)
      ensures MirroredBy(State(), storage.Disk())
    {
      this.id, this.peers, this.storage, this.machine := id, peers, storage, machine;
      term, votedFor, log := storage.term, storage.votedFor, storage.log;
      var lastIndex, lastTerm := 0, 0;
      if storage.snapshot.Some? {
        machine.Restore(storage.snapshot.value.data);
        lastIndex, lastTerm := storage.snapshot.value.lastIndex, storage.snapshot.value.lastTerm;
      }
      snapIndex, snapTerm, commit, applied := lastIndex, lastTerm, lastIndex, lastIndex;
      next, acked, role, votes, threshold := map[], map[], Follower, [], 1000;
    }

    method SetSnapshotThreshold(value: nat)
      modifies this`threshold
      ensures State() == old(State()).(threshold := value)
    {
      threshold := value;
    }

    // ----- persistence -----

    method SetTerm(value: nat)
      modifies this`term, storage`term
      ensures term == value && storage.term == value
    {
      term := value;
      storage.SaveTerm(value);
    }

    method SetVotedFor(value: Option<nat>)
      modifies this`votedFor, storage`votedFor
      ensures votedFor == value && storage.votedFor == value
    {
      votedFor := value;
      storage.SaveVotedFor(value);
    }

    method UpdateTerm(value: nat)
      modifies this`term, this`votedFor, storage`term, storage`votedFor
      ensures term == value && votedFor == None && storage.term == value && storage.votedFor == None
    {
      SetTerm(value);
      SetVotedFor(None);
    }

    method PersistLogEntry(entry: Entry)
      modifies this`log, storage`log
      ensures log == old(log) + [entry] && storage.log == old(storage.log) + [entry]
    {
      storage.AppendLogEntries([entry]);
      log := log + [entry];
    }

    /** Cuts the memory by position and the storage by index. */
    method PersistTruncateLog(fromIndex: nat)
      requires fromIndex > 0
      modifies this`log, storage`log
      ensures log == CutLog(0, old(log), fromIndex)
      ensures storage.log == if fromIndex - 1 < |old(log)| then EntriesBelow(old(storage.log), fromIndex)
                             else old(storage.log)
    {
      var at := fromIndex - 1;
      if at < |log| {
        storage.TruncateLog(fromIndex);
        log := log[..at];
      }
    }

    // ----- searching the log -----

    method FindFirstIndexForTerm(wanted: nat, fromIndex: nat) returns (index: nat)
      ensures index == FirstIndexOfRun(State(), wanted, fromIndex)
    {
      index := fromIndex;
      while index > snapIndex + 1
        invariant FirstIndexOfRun(State(), wanted, index) == FirstIndexOfRun(State(), wanted, fromIndex)
      {
        var entry := GetEntry(State(), index - 1);
        if entry.Some? && entry.value.term == wanted {
          index := index - 1;
        } else {
          break;
        }
      }
    }

    method FindLastIndexForTerm(wanted: nat) returns (index: Option<nat>)
      ensures index == LastIndexForTerm(State(), wanted)
    {
      var n: nat := |log|;
      while n > 0
        invariant 0 <= n <= |log|
        invariant LastIndexInLog(log, n, wanted) == LastIndexInLog(log, |log|, wanted)
      {
        if log[n - 1].term == wanted {
          return Some(log[n - 1].index);
        }
        if log[n - 1].term < wanted {
          assert LastIndexInLog(log, n, wanted) == None;
          break;
        }
        n := n - 1;
      }
      if snapTerm == wanted && snapIndex > 0 {
        return Some(snapIndex);
      }
      index := None;
    }

    // ----- votes -----

    /** Works also on a memory that the storage does not mirror; see Disks. */
    method HandleRequestVote(req: VoteArgs) returns (result: VoteResult)
      modifies this, storage
      ensures (State(), result) == CoreSteps.HandleRequestVote(old(State()), req)
      ensures storage.Disk() == DiskAfterVote(old(storage.Disk()), old(State()), req)
      ensures old(Valid()) ==> Valid()
    {
      if req.term < term {
        return VoteResult(term, false);
      }
      if req.term > term {
        UpdateTerm(req.term);
        role := Follower;
      }
      if votedFor.Some? && votedFor != Some(req.candidateId) {
        return VoteResult(term, false);
      }
      if !UpToDate(req.lastLogTerm, req.lastLogIndex, LastLogTerm(State()), LastLogIndex(State())) {
        return VoteResult(term, false);
      }
      SetVotedFor(Some(req.candidateId));
      result := VoteResult(term, true);
    }

    method StartElection()
      modifies this, storage
      ensures State() == CoreSteps.StartElection(old(State()))
      ensures old(Valid()) ==> Valid()
    {
      SetTerm(term + 1);
      role := Candidate;
      SetVotedFor(Some(id));
      votes := [id];
    }

    method ResetPeers(lastIndex: nat)
      modifies this`next, this`acked
      ensures next == Inserted(old(next), peers, lastIndex + 1) && acked == Inserted(old(acked), peers, 0)
    {
      for i := 0 to |peers|
        invariant next == Inserted(old(next), peers[..i], lastIndex + 1)
        invariant acked == Inserted(old(acked), peers[..i], 0)
      {
        assert peers[..i + 1][..i] == peers[..i];
        next := next[peers[i] := lastIndex + 1];
        acked := acked[peers[i] := 0];
      }
      assert peers[..|peers|] == peers;
    }

    method BecomeLeader()
      requires Valid()
      modifies this, storage
      ensures State() == CoreSteps.BecomeLeader(old(State())) && Valid()
    {
      hide WithEach, Inserted;
      InsertedIs(next, peers, LastLogIndex(State()) + 1);
      InsertedIs(acked, peers, 0);
      role := Leader;
      ResetPeers(LastLogIndex(State()));
      PersistLogEntry(Entry(term, LastLogIndex(State()) + 1, NOOP_COMMAND));
    }

    /** A reply of a higher term: process_request_vote_response and process_append_entries_response. */
    method ProcessReplyTerm(replyTerm: nat)
      modifies this, storage
      ensures State() == StepDown(old(State()), replyTerm)
      ensures old(Valid()) ==> Valid()
    {
      if replyTerm > term {
        UpdateTerm(replyTerm);
        role := Follower;
      }
    }

    method HandleRequestVoteResult(peer: nat, result: VoteResult) returns (won: bool)
      requires Valid()
      modifies this, storage
      ensures (State(), won) == HandleVoteResult(old(State()), peer, result) && Valid()
    {
      ProcessReplyTerm(result.term);
      if role != Candidate {
        return false;
      }
      if result.granted && peer !in votes {
        votes := votes + [peer];
      }
      var majority := (1 + |peers|) / 2 + 1;
      if |votes| >= majority {
        BecomeLeader();
        return true;
      }
      won := false;
    }

    // ----- the log -----

    method AppendLogEntry(command: string) returns (entry: Option<Entry>)
      requires Valid()
      modifies this, storage
      ensures Valid()
      ensures entry.Some? <==> old(role) == Leader
      ensures State() == (if entry.Some? then AppendCommand(old(State()), command).value else old(State()))
      ensures entry.Some? ==> GetEntry(State(), LastLogIndex(State())) == entry && entry.value.command == command
    {
      if role != Leader {
        return None;
      }
      var e := Entry(term, LastLogIndex(State()) + 1, command);
      PersistLogEntry(e);
      entry := Some(e);
    }

    /** What the batch does to memory and to storage, whatever it holds. */
    method ApplyEntries(entries: seq<Entry>)
      modifies this`log, storage`log
      ensures log == StoreEntries(snapIndex, 0, old(log), entries)
      ensures storage.log == DiskEntries(snapIndex, old(log), old(storage.log), entries)
    {
      for i := 0 to |entries|
        invariant log == StoreEntries(snapIndex, 0, old(log), entries[..i])
        invariant storage.log == DiskEntries(snapIndex, old(log), old(storage.log), entries[..i])
      {
        hide StoreEntries, StoreEntry, DiskEntries, DiskEntry;
        StoreEntriesStep(snapIndex, old(log), entries, i);
        DiskEntriesStep(snapIndex, old(log), old(storage.log), entries, i);
        StoreOne(entries[i]);
      }
      assert entries[..|entries|] == entries;
    }

    method StoreOne(entry: Entry)
      modifies this`log, storage`log
      ensures log == StoreEntry(snapIndex, 0, old(log), entry)
      ensures storage.log == DiskEntry(snapIndex, old(log), old(storage.log), entry)
    {
      if entry.index <= snapIndex {
        return;
      }
      var k := entry.index - snapIndex - 1;
      if k < |log| {
        if log[k].term != entry.term {
          PersistTruncateLog(entry.index);
          PersistLogEntry(entry);
        }
      } else {
        PersistLogEntry(entry);
      }
    }

    // ----- applying and compacting -----

    /** Panics exactly if a committed entry is missing that is still to be applied. Without an automatic
        snapshot nothing but the state machine and `applied` changes. */
    method ApplyCommittedEntries() returns (results: seq<(nat, KvStore.Outcome)>, panicked: bool)
      requires snapIndex <= applied
      modifies this, storage, machine
      ensures panicked <==> !Applicable(old(State()))
      ensures old(Valid()) ==> Valid() && !panicked
      ensures State() == ApplyCommitted(old(State())) && results == ApplyResults(old(State()))
      ensures commit == old(commit)
      ensures snapIndex == old(snapIndex) ==>
                && (term, votedFor, snapTerm, log) == old((term, votedFor, snapTerm, log))
                && storage.Disk() == old(storage.Disk())
                && (!panicked ==> applied == Max(old(applied), commit))
      ensures snapIndex != old(snapIndex) ==>
                && snapIndex == applied == Max(old(applied), commit)
                && (term, votedFor, log) == old((term, votedFor, EntriesFrom(log, Max(applied, commit) + 1)))
                && storage.Disk() == CompactedDisk(old(storage.Disk()), State())
    {
      results, panicked := ApplyLoop();
      if panicked {
        return;
      }
      if threshold > 0 {
        var sinceSnapshot := applied - snapIndex;
        if sinceSnapshot >= threshold {
          var ok := TakeSnapshot();
        }
      }
    }

    method ApplyLoop() returns (results: seq<(nat, KvStore.Outcome)>, panicked: bool)
      modifies this`applied, machine
      ensures panicked <==> !Applicable(old(State()))
      ensures old(Valid()) ==> Valid() && !panicked
      ensures State() == ApplyUpTo(old(State())) && results == ApplyResults(old(State()))
      ensures applied >= old(applied) && (!panicked ==> applied == Max(old(applied), commit))
    {
      hide ApplyUpTo, ApplyResults, Applicable, Applied, GetEntry, KvStore.ApplyCommand, ResultOf;
      results := [];
      ghost var c := State();
      ValidIsApplicable(c);
      while applied < commit
        invariant c.applied <= applied && (applied == c.applied || applied <= commit)
        invariant Applicable(State()) == Applicable(c)
        invariant ApplyUpTo(State()) == ApplyUpTo(c)
        invariant results + ApplyResults(State()) == ApplyResults(c)
      {
        AppliedKeepsRest(State());
        NextIsThere(State());
        var result := ApplyNext();
        if result.None? {
          return results, true;
        }
        Append(results, result.value, ApplyResults(State()));
        results := results + [result.value];
      }
      NothingLeft(State());
      panicked := false;
    }

    /** None is the panic; the counter has moved on by then. */
    method ApplyNext() returns (result: Option<(nat, KvStore.Outcome)>)
      modifies this`applied, machine
      ensures var c := old(State());
              match GetEntry(c, c.applied + 1)
              case None => result.None? && State() == c.(applied := c.applied + 1)
              case Some(e) => State() == Applied(c, e) && result == Some(ResultOf(c, e))
    {
      hide KvStore.ApplyCommand;
      applied := applied + 1;
      var entry := GetEntry(State(), applied);
      if entry.None? {
        return None;
      }
      var outcome := machine.Apply(entry.value.command);
      result := Some((applied, outcome));
    }

    method TakeSnapshot() returns (ok: bool)
      modifies this, storage
      ensures old(Valid()) ==> Valid()
      ensures ok <==> CoreSteps.TakeSnapshot(old(State())).Some?
      ensures State() == (if ok then CoreSteps.TakeSnapshot(old(State())).value else old(State()))
      ensures ok ==> storage.Disk() == CompactedDisk(old(storage.Disk()), State())
      ensures ok ==> snapIndex == applied > old(snapIndex)
      ensures !ok ==> storage.Disk() == old(storage.Disk())
    {
      if applied == 0 || applied <= snapIndex {
        return false;
      }
      var last := GetEntry(State(), applied);
      if last.None? {
        return false;
      }
      if Ordered(State()) { TakenIsOrdered(State()); }
      hide EntriesFrom, Ordered;
      storage.SaveSnapshot(Snapshot(applied, last.value.term, machine.data));
      CompactTo(applied, last.value.term);
      ok := true;
    }

    /** The snapshot now ends at `index`; entries it covers go, in memory and in storage. */
    method CompactTo(index: nat, lastTerm: nat)
      modifies this`snapIndex, this`snapTerm, this`log, storage`log
      ensures snapIndex == index && snapTerm == lastTerm
      ensures log == EntriesFrom(old(log), index + 1) && storage.log == EntriesFrom(old(storage.log), index + 1)
    {
      snapIndex, snapTerm := index, lastTerm;
      log := EntriesFrom(log, index + 1);
      storage.CompactLog(index + 1);
    }

    method HandleInstallSnapshot(args: InstallArgs) returns (result: InstallResult)
      requires Valid()
      modifies this, storage, machine
      ensures Valid()
      ensures (State(), result) == InstallSnapshot(old(State()), args)
      ensures result.Installed? ==> storage.snapshot == Some(args.snapshot)
    {
      hide EntriesFrom, Ordered;
      if args.term < term {
        return Refused(term);
      }
      ProcessReplyTerm(args.term);
      if args.snapshot.lastIndex <= snapIndex {
        return Refused(term);
      }
      TakeIn(args.snapshot);
      result := Installed(term);
    }

    method TakeIn(snapshot: Snapshot)
      requires Valid() && snapshot.lastIndex > snapIndex
      modifies this`snapIndex, this`snapTerm, this`log, this`commit, this`applied, storage, machine
      ensures Valid() && storage.snapshot == Some(snapshot)
      ensures State() == Taken(old(State()), snapshot)
    {
      ghost var c, disk := State(), storage.Disk();
      TakenInIsValid(c, disk, snapshot);
      hide EntriesFrom, Ordered, MirroredBy, Min, Max;
      var k := snapshot.lastIndex;
      storage.SaveSnapshot(snapshot);
      machine.Restore(snapshot.data);
      CompactTo(k, snapshot.lastTerm);
      commit, applied := Max(commit, k), Max(applied, k);
      assert storage.Disk() == disk.(log := EntriesFrom(disk.log, k + 1), snapshot := Some(snapshot));
      assert State() == Taken(c, snapshot);
    }

    // ----- replication -----

    /** For any batch without gaps in itself the memory and the reply are those of the source's handler; no
        reply is a panic, and when it comes is said exactly. The node stays valid if the batch is refused
        or survives, and unless a snapshot is taken in the same call, exactly then; with one, exactly if
        what is left after it is the same in memory and storage. */
    method HandleAppendEntries(req: AppendArgs) returns (reply: Option<AppendResult>)
      requires Valid() && Numbered(req)
      modifies this, storage, machine
      ensures var (c, result) := CoreSteps.HandleAppendEntries(AsWritten, old(State()), req);
              && State() == c
              && reply == (if result.success && Panics(old(State()), req) then None else Some(result))
              && (!result.success || Survives(old(State()), req) ==> Valid())
              && (snapIndex == old(snapIndex) ==> (Valid() <==> !result.success || Survives(old(State()), req)))
              && (snapIndex != old(snapIndex) ==> (Valid() <==> SurvivesCompaction(old(State()), req)))
    {
      ProcessReplyTerm(req.term);
      if req.term < term {
        return Some(AppendResult(term, false, None, None));
      }
      Listening(old(State()), req);
      Following(State(), storage.Disk());
      hide Ordered, MirroredBy, Survives, SurvivesCompaction, Panics, Numbered, CheckPrev, AcceptEntriesAt;
      role := Follower;
      var check := CheckPrevEntry(req.prevLogIndex, req.prevLogTerm);
      if check.Conflict? {
        return Some(AppendResult(term, false, check.term, Some(check.index)));
      }
      var panicked := AcceptEntries(req);
      reply := if panicked then None else Some(AppendResult(term, true, None, None));
    }

    /** What an accepted batch does, the same in each of the three places of the source. */
    method AcceptEntries(req: AppendArgs) returns (panicked: bool)
      requires Valid() && Numbered(req)
      modifies this, storage, machine
      ensures State() == CoreSteps.AcceptEntries(AsWritten, old(State()), req) && term == old(term)
      ensures panicked <==> Panics(old(State()), req)
      ensures Survives(old(State()), req) ==> Valid()
      ensures snapIndex == old(snapIndex) ==> (Valid() <==> Survives(old(State()), req))
      ensures snapIndex != old(snapIndex) ==> (Valid() <==> SurvivesCompaction(old(State()), req))
    {
      ghost var c := State();
      BatchSurvives(c, req);
      hide StoreEntries, DiskEntries, Contiguous, Survives, ApplyCommitted, Applicable;
      ApplyEntries(req.entries);
      panicked := false;
      if req.leaderCommit > commit {
        panicked := MoveCommit(req.leaderCommit);
      }
    }

    method MoveCommit(leaderCommit: nat) returns (panicked: bool)
      requires leaderCommit > commit && snapIndex <= applied
      modifies this, storage, machine
      ensures var c := old(State()).(commit := Min(leaderCommit, LastLogIndex(old(State()))));
              State() == ApplyCommitted(c) && (panicked <==> !Applicable(c)) && term == c.term
      ensures var right := MirroredBy(old(State()), old(storage.Disk())) && Contiguous(old(snapIndex), old(log))
                           && old(applied) <= Min(leaderCommit, LastLogIndex(old(State())));
              (right ==> Valid()) && (snapIndex == old(snapIndex) ==> (Valid() <==> right))
      ensures snapIndex != old(snapIndex) ==>
                var right := RestSurvives(old(applied), Min(leaderCommit, LastLogIndex(old(State()))), old(log),
                                          old(storage.log));
                Valid() <==> right && old((storage.term, storage.votedFor) == (term, votedFor))
    {
      commit := Min(leaderCommit, LastLogIndex(State()));
      ApplyKeepsRest(State());
      hide ApplyCommitted, AutoSnapshot, ApplyUpTo, Outcomes;
      var _, p := ApplyCommittedEntries();
      panicked := p;
    }

    method CheckPrevEntry(prevIndex: nat, prevTerm: nat) returns (check: PrevCheck)
      ensures check == CheckPrev(State(), prevIndex, prevTerm)
      ensures Valid() && check == Agrees ==> prevIndex <= snapIndex + |log|
    {
      check := Agrees;
      if prevIndex > 0 {
        if prevIndex > LastLogIndex(State()) {
          check := Conflict(None, LastLogIndex(State()) + 1);
        } else if prevIndex == snapIndex {
          if prevTerm != snapTerm {
            check := Conflict(Some(snapTerm), snapIndex);
          }
        } else {
          var entry := GetEntry(State(), prevIndex);
          if entry.None? {
            check := Conflict(None, snapIndex + 1);
          } else if entry.value.term != prevTerm {
            var first := FindFirstIndexForTerm(entry.value.term, prevIndex);
            check := Conflict(Some(entry.value.term), first);
          }
        }
      }
    }

    method RecordReply(peer: nat, entryIndex: nat, result: AppendResult)
      modifies this`next, this`acked
      ensures State() == CoreSteps.RecordReply(old(State()), peer, entryIndex, result)
    {
      if result.success {
        if entryIndex > 0 {
          if entryIndex > Lookup(acked, peer, 0) {
            acked := acked[peer := entryIndex];
          }
          next := next[peer := entryIndex + 1];
        }
      } else {
        var current := Lookup(next, peer, 1);
        var hinted: nat;
        if result.conflictTerm.Some? {
          var found := FindLastIndexForTerm(result.conflictTerm.value);
          hinted := if found.Some? then found.value + 1
          else if result.conflictIndex.Some? then result.conflictIndex.value else 1;
        } else if result.conflictIndex.Some? {
          hinted := result.conflictIndex.value;
        } else {
          hinted := if current > 1 then current - 1 else 1;
        }
        next := next[peer := Min(Max(hinted, 1), if current > 1 then current - 1 else 1)];
      }
    }

    /** How many nodes hold the entry, the leader included. */
    method CountReplicated(entryIndex: nat) returns (count: nat)
      ensures count == 1 + |Replicated(acked, entryIndex)|
    {
      count := 1;
      var rest := acked.Keys;
      while rest != {}
        invariant rest <= acked.Keys
        invariant count == 1 + |Replicated(acked, entryIndex) - rest|
        decreases |rest|
      {
        var p :| p in rest;
        var before, after := Replicated(acked, entryIndex) - rest, Replicated(acked, entryIndex) - (rest - {p});
        if acked[p] >= entryIndex {
          assert after == before + {p};
          count := count + 1;
        } else {
          assert after == before;
        }
        rest := rest - {p};
      }
      assert Replicated(acked, entryIndex) - {} == Replicated(acked, entryIndex);
    }

    method HandleAppendEntriesResult(peer: nat, entryIndex: nat, result: AppendResult)
      returns (committed: Option<nat>, results: seq<(nat, KvStore.Outcome)>)
      requires Valid()
      modifies this, storage, machine
      ensures Valid()
      ensures State() == HandleAppendResult(old(State()), peer, entryIndex, result)
      ensures committed == if commit > old(commit) then Some(entryIndex) else None
      ensures results == if committed.None? then [] else ApplyResults(old(State()).(commit := entryIndex))
    {
      hide CoreSteps.RecordReply, ApplyCommitted, Replicated, Outcomes;
      ProcessReplyTerm(result.term);
      if role != Leader {
        return None, [];
      }
      RecordReply(peer, entryIndex, result);
      if entryIndex == 0 {
        return None, [];
      }
      var entry := GetEntry(State(), entryIndex);
      if entry.None? || entry.value.term != term {
        return None, [];
      }
      var count := CountReplicated(entryIndex);
      var majority := (1 + |peers|) / 2 + 1;
      if count >= majority && entryIndex > commit {
        commit := entryIndex;
        var panicked;
        results, panicked := ApplyCommittedEntries();
        assert !panicked;
        return Some(entryIndex), results;
      }
      return None, [];
    }
  }
}
