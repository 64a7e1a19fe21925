/** What a submitted entry's replication (src/core/raft_node.rs:80-121) does to a peer that needs entries
    the leader has compacted: the batch then begins after the snapshot, whatever the peer holds. */
module GapBatch {
  import opened Types
  import opened CoreSteps
  import opened Batch
  import opened Applying
  import opened Mirror
  import opened SnapshotLayer
  import RaftCore
  import RaftNode
  import KvStore

  /** The request that replication sends for the entry at `index`. */
  function Replication(c: Core, peer: nat, index: nat): AppendArgs {
    AppendRequest(c, peer, SubmitEntries(c, peer, index))
  }

  /** The request carries the leader's entries after its snapshot or, if later, from the next index on. */
  lemma ReplicationCarries(whole: Log, c: Core, peer: nat, index: nat)
    requires Represents(whole, c) && 1 <= NextFor(c, peer) <= |whole| + 1 && c.snapIndex < index <= |whole|
    ensures var req := Replication(c, peer, index);
            var low := Max(NextFor(c, peer) - 1, c.snapIndex);
            && Numbered(req) && req.prevLogIndex <= Start(req) && req.entries == whole[low..Max(low, index)]
            && (low < index ==> Start(req) == low)
  {
    RaftNode.SubmitEntriesOfWhole(whole, c, peer, index);
    var low := Max(NextFor(c, peer) - 1, c.snapIndex);
    if low < index { assert whole[low..index][0] == whole[low]; }
  }

  /** At a peer that holds the entry the request names, the batch leaves a gap exactly if the peer's log
      ends before the leader's snapshot, and the peer panics exactly if besides the commit index moves
      beyond the positions that then exist. */
  lemma ReplicationPanicsIff(whole: Log, c: Core, peer: nat, index: nat, f: Core)
    requires Represents(whole, c) && 1 <= NextFor(c, peer) <= |whole| + 1 && c.snapIndex < index <= |whole|
    requires RaftCore.Ordered(f) && NextFor(c, peer) - 1 <= LastLogIndex(f)
    ensures var req, last := Replication(c, peer, index), LastLogIndex(f);
            && (RaftCore.Gap(f, req) <==> last < c.snapIndex)
            && (RaftCore.Panics(f, req) <==>
                && last < c.snapIndex
                && c.commit > f.commit && Min(c.commit, index) > last + index - c.snapIndex)
  {
    ReplicationCarries(whole, c, peer, index);
    RaftCore.LastIndexIs(f);
    hide SubmitEntries, Contiguous;
  }

  /** Where the log ends before the leader's snapshot, the entry after the snapshot takes the position
      after the log's end, and with it every other entry of the batch a position too low. */
  lemma GapMisplaces(whole: Log, c: Core, peer: nat, index: nat, f: Core)
    requires Represents(whole, c) && 1 <= NextFor(c, peer) <= |whole| + 1 && c.snapIndex < index <= |whole|
    requires RaftCore.Ordered(f) && NextFor(c, peer) - 1 <= LastLogIndex(f) < c.snapIndex
    ensures var req, last := Replication(c, peer, index), LastLogIndex(f);
            var f' := f.(log := StoreEntries(f.snapIndex, 0, f.log, req.entries));
            forall i | c.snapIndex <= i < index :: GetEntry(f', i + 1 - c.snapIndex + last) == Some(whole[i])
  {
    ReplicationCarries(whole, c, peer, index);
    RaftCore.LastIndexIs(f);
    var req := Replication(c, peer, index);
    GapAppends(f.snapIndex, 0, f.log, f.log, Start(req), req.entries);
    var grown := StoreEntries(f.snapIndex, 0, f.log, req.entries);
    hide StoreEntries, Replication, Contiguous;
    forall i | c.snapIndex <= i < index
      ensures GetEntry(f.(log := grown), i + 1 - c.snapIndex + LastLogIndex(f)) == Some(whole[i])
    {
      assert grown[|f.log| + i - c.snapIndex] == req.entries[i - c.snapIndex] == whole[i];
    }
  }

  // ----- such a leader, such a peer -----

  const NOOP1 := Entry(1, 1, NOOP_COMMAND)
  const FIRST := Entry(1, 2, "SET a b")
  const SECOND := Entry(1, 3, "SET k v")

  const CANDIDATE := StartElection(Boot(1, [2, 3], Stored(0, None, [], None), 2))
  const ELECTED := CANDIDATE.(role := Leader, votes := [1, 3], log := [NOOP1],
                   next := map[2 := 1, 3 := 1], acked := map[2 := 0, 3 := 0])
  const COMPACTED := ELECTED.(log := [], snapIndex := 2, snapTerm := 1, commit := 2, applied := 2,
                     next := map[2 := 1, 3 := 3], acked := map[2 := 0, 3 := 2], data := map["a" := "b"])
  const LEADER := COMPACTED.(log := [SECOND])

  lemma AppliedBoth(c: Core)
    requires c.snapIndex == 0 && c.log == [NOOP1, FIRST] && c.commit == 2 && c.applied == 0 && c.data == map[]
    ensures ApplyUpTo(c) == c.(applied := 2, data := map["a" := "b"])
  {
    assert "SET a b" == "SET " + "a" + " " + "b";
    KvStore.SetStores(map[], "a", "b");
    var c1 := c.(applied := 1);
    assert KvStore.ApplyCommand(map[], NOOP_COMMAND) == (map[], KvStore.Done);
    hide KvStore.ApplyCommand;
    ApplyUpToUnfolds(c);
    ApplyUpToUnfolds(c1);
    ApplyUpToUnfolds(c1.(applied := 2, data := map["a" := "b"]));
  }

  lemma Compacts(c: Core)
    requires c.snapIndex == 0 && c.log == [NOOP1, FIRST] && c.applied == 2 && c.threshold == 2
    ensures AutoSnapshot(c) == c.(snapIndex := 2, snapTerm := 1, log := [])
  {
    assert Contiguous(0, c.log);
    EntriesFromIsSlice(0, c.log, 3);
  }

  lemma Confirms(c: Core)
    requires c == ELECTED.(log := [NOOP1, FIRST], next := map[2 := 1, 3 := 3], acked := map[2 := 0, 3 := 2])
    ensures CommitCounted(c, 2) == COMPACTED
  {
    AppliedBoth(c.(commit := 2));
    Compacts(c.(commit := 2, applied := 2, data := map["a" := "b"]));
    assert Replicated(c.acked, 2) == {3};
    hide ApplyUpTo, AutoSnapshot, Replicated;
  }

  lemma Wins()
    ensures HandleVoteResult(CANDIDATE, 3, VoteResult(1, true)) == (ELECTED, true)
  {
    assert [1] + [3] == [1, 3];
    assert BecomeLeader(CANDIDATE.(votes := [1, 3])) == ELECTED;
  }

  lemma Replies(c: Core)
    requires c == ELECTED.(log := [NOOP1, FIRST])
    ensures HandleAppendResult(c, 3, 2, AppendResult(1, true, None, None)) == COMPACTED
  {
    var c1 := c.(next := map[2 := 1, 3 := 3], acked := map[2 := 0, 3 := 2]);
    Confirms(c1);
    assert RecordReply(c, 3, 2, AppendResult(1, true, None, None)) == c1;
    hide CommitCounted, RecordReply;
  }

  /** The leader comes about with the default next indices when node 2 never answers: it wins term 1 with
      the vote of node 3, node 3 confirms one command, after which a snapshot is due, and a second
      command comes. */
  lemma LeaderArises()
    ensures HandleVoteResult(CANDIDATE, 3, VoteResult(1, true)) == (ELECTED, true)
    ensures AppendCommand(ELECTED, "SET a b") == Some(ELECTED.(log := [NOOP1, FIRST]))
    ensures HandleAppendResult(ELECTED.(log := [NOOP1, FIRST]), 3, 2, AppendResult(1, true, None, None)) == COMPACTED
    ensures AppendCommand(COMPACTED, "SET k v") == Some(LEADER)
  {
    Wins();
    assert [NOOP1] + [FIRST] == [NOOP1, FIRST] && [] + [SECOND] == [SECOND];
    Replies(ELECTED.(log := [NOOP1, FIRST]));
    hide HandleAppendResult, HandleVoteResult;
  }

  lemma RequestIs()
    ensures Replication(LEADER, 2, 3) == AppendArgs(1, 1, 0, 0, [SECOND], 2)
  {
    assert [SECOND][..0] == [];
    assert EntriesFrom([SECOND], 1) == [SECOND];
    assert EntriesUpTo([SECOND], 3) == [SECOND];
  }

  lemma OneApplied(c: Core)
    requires c.snapIndex == 0 && c.log == [SECOND] && c.commit == 2 && c.applied == 0 && c.data == map[]
    ensures ApplyUpTo(c) == c.(applied := 2, data := map["k" := "v"])
  {
    assert "SET k v" == "SET " + "k" + " " + "v";
    KvStore.SetStores(map[], "k", "v");
    hide KvStore.ApplyCommand;
    ApplyUpToUnfolds(c);
    ApplyUpToUnfolds(c.(applied := 1, data := map["k" := "v"]));
  }

  const FRESH := Boot(2, [1, 3], Stored(0, None, [], None), 1000)

  lemma FreshAccepts(c: Core, req: AppendArgs)
    requires c == FRESH.(term := 1) && req == AppendArgs(1, 1, 0, 0, [SECOND], 2)
    ensures AcceptEntries(AsWritten, c, req) == c.(log := [SECOND], commit := 2, applied := 2, data := map["k" := "v"])
  {
    OneApplied(c.(log := [SECOND], commit := 2));
    assert [SECOND][..0] == [];
    assert StoreEntries(0, 0, [], [SECOND]) == [SECOND];
    hide ApplyUpTo, StoreEntries, GetEntry;
  }

  /** The leader's own request makes a new peer apply the third entry as its first and then panic: the
      second position has no entry. The write in the leader's snapshot is missing. */
  lemma FreshPeerPanics()
    ensures var req := Replication(LEADER, 2, 3);
            var (f, result) := HandleAppendEntries(AsWritten, FRESH, req);
            && RaftCore.Ordered(FRESH) && Numbered(req) && RaftCore.Panics(FRESH, req) && result.success
            && f == FRESH.(term := 1, log := [SECOND], commit := 2, applied := 2, data := map["k" := "v"])
            && GetEntry(f, 1) == Some(SECOND) && SECOND.index == 3 && GetEntry(f, 2) == None
            && LEADER.applied == 2 && LEADER.data == map["a" := "b"]
  {
    RequestIs();
    FreshAccepts(FRESH.(term := 1), AppendArgs(1, 1, 0, 0, [SECOND], 2));
    hide Replication, AcceptEntriesAt;
  }
}
