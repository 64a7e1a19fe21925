/** A run of the code in which a submitted entry is sent after the node that appended it was deposed
    (src/core/raft_server.rs:214-234, src/core/raft_node.rs:80-121): the message carries the new term and
    overwrites a committed entry. Every other guard of Disks holds. */
module LateReplication {
  import opened Types
  import opened CoreSteps
  import opened Cluster
  import opened Disks
  import opened Counterexamples
  import opened TwoLeaders
  import KvStore

  const LATE := Guards(true, false, true)

  const OWED := map[1 := 2]

  // ----- node 1 appends a write and is held up before it sends it -----

  lemma Appended() returns (run: seq<Full>)
    ensures Nodes(LATE, run, A3, B2, C1, DiskOf(A3)) && Owes(run, OWED)
  {
    run := NoopStored(LATE);
    KvStore.SetStores(map[], "k", "v");
    hide KvStore.Validate, KvStore.ApplyCommand;
    assert [NOOP1] + [WRITE] == [NOOP1, WRITE];
    assert AppendCommand(A2, SET) == Some(A3);
    hide AppendCommand;
    run := Move(LATE, run, Submit(1, SET), A2, B2, C1, DiskOf(A2));
  }

  // ----- node 2 wins term 2 and commits its no-op at the same index -----

  const ASK := VoteReq(2, 3, VoteArgs(2, 2, 1, 1))

  lemma Asking() returns (run: seq<Full>)
    ensures Nodes(LATE, run, A3, B3, C1, DiskOf(A3)) && Owes(run, OWED) && InNet(run, ASK) && InNet(run, ASK2)
  {
    run := Appended();
    run := Move(LATE, run, Timeout(2), A3, B2, C1, DiskOf(A3));
    assert Nodes(LATE, run, A3, B3, C1, DiskOf(A3));
    VoteAsked(B3, 3);
    VoteAsked(B3, 1);
    run := Move(LATE, run, RequestVotes(2), A3, B3, C1, DiskOf(A3));
  }

  const VOTE := VoteRep(3, 2, 2, VoteResult(2, true))

  lemma Voted2() returns (run: seq<Full>)
    ensures Nodes(LATE, run, A3, B3, C2, DiskOf(A3)) && Owes(run, OWED) && InNet(run, ASK2) && InNet(run, VOTE)
  {
    run := Asking();
    assert HandleRequestVote(C1, ASK.vote) == (C2, VOTE.voted);
    hide HandleRequestVote;
    run := Move(LATE, run, ReceiveVoteReq(3, ASK), A3, B3, C1, DiskOf(A3));
  }

  lemma Elected() returns (run: seq<Full>)
    ensures Nodes(LATE, run, A3, B4, C2, DiskOf(A3)) && Owes(run, OWED) && InNet(run, ASK2)
  {
    run := Voted2();
    SecondWin();
    hide HandleVoteResult;
    run := Move(LATE, run, ReceiveVoteRep(2, VOTE), A3, B3, C2, DiskOf(A3));
  }

  lemma Sent2() returns (run: seq<Full>)
    ensures Nodes(LATE, run, A3, B4, C3, DiskOf(A3)) && Owes(run, OWED) && InNet(run, ASK2) && InNet(run, BEAT_OK)
  {
    run := Beat2();
    SecondBeat();
    hide HandleAppendEntries, Heartbeats;
    run := Move(LATE, run, ReceiveAppendReq(3, BEAT), A3, B4, C2, DiskOf(A3));
  }

  lemma Beat2() returns (run: seq<Full>)
    ensures Nodes(LATE, run, A3, B4, C2, DiskOf(A3)) && Owes(run, OWED) && InNet(run, ASK2) && InNet(run, BEAT)
  {
    run := Elected();
    SecondBeat();
    hide HandleAppendEntries, Heartbeats;
    run := Move(LATE, run, Heartbeat(2), A3, B4, C2, DiskOf(A3));
  }

  lemma CommittedBy2() returns (run: seq<Full>)
    ensures Nodes(LATE, run, A3, B5, C3, DiskOf(A3)) && Owes(run, OWED) && InNet(run, ASK2)
  {
    run := Sent2();
    SecondCommitNode();
    hide HandleAppendResult;
    run := Move(LATE, run, ReceiveAppendRep(2, BEAT_OK), A3, B4, C3, DiskOf(A3));
  }

  // ----- node 1 hears of term 2, then sends its write in that term -----

  const D1 := A3.(term := 2, votedFor := None, role := Follower)
  const LATE3 := AppendReq(1, 3, AppendArgs(2, 1, 0, 0, [NOOP1, WRITE], 0), 2, None)
  const D3 := C3.(log := [NOOP1, WRITE])

  lemma Deposed() returns (run: seq<Full>)
    ensures Nodes(LATE, run, D1, B5, C3, DiskOf(D1)) && Owes(run, OWED)
  {
    run := CommittedBy2();
    assert HandleRequestVote(A3, ASK2.vote) == (D1, VoteResult(2, false));
    assert DiskAfterVote(DiskOf(A3), A3, ASK2.vote) == DiskOf(D1);
    hide HandleRequestVote, DiskAfterVote;
    run := Move(LATE, run, ReceiveVoteReq(1, ASK2), A3, B5, C3, DiskOf(A3));
  }

  lemma WholeLogTo3()
    ensures LATE3 in Replications(D1, 2)
  {
    assert [NOOP1, WRITE][..1] == [NOOP1] && [NOOP1][..0] == [];
    assert EntriesFrom([NOOP1], 1) == [NOOP1] && EntriesFrom([NOOP1, WRITE], 1) == [NOOP1, WRITE];
    assert EntriesUpTo([NOOP1], 2) == [NOOP1] && EntriesUpTo([NOOP1, WRITE], 2) == [NOOP1, WRITE];
    hide EntriesFrom, EntriesUpTo;
    assert NextFor(D1, 3) == 1;
    assert SubmitEntries(D1, 3, 2) == [NOOP1, WRITE];
    assert LATE3 == AppendReq(D1.id, 3, AppendRequest(D1, 3, SubmitEntries(D1, 3, 2)), 2, None);
  }

  lemma Overwrites()
    ensures HandleAppendEntries(AsWritten, C3, LATE3.append) == (D3, AppendResult(2, true, None, None))
  {
    assert [NOOP1, WRITE][..1] == [NOOP1] && [NOOP1][..0] == [] && [NOOP1, NOOP2][..1] == [NOOP1];
    assert StoreEntries(0, 0, [NOOP1, NOOP2], [NOOP1]) == [NOOP1, NOOP2];
    assert StoreEntries(0, 0, [NOOP1, NOOP2], [NOOP1, WRITE]) == [NOOP1, WRITE];
    hide StoreEntries;
  }

  /** A committed entry is gone from the majority that made it so. */
  lemma Overwritten() returns (run: seq<Full>)
    ensures Now(LATE, run, D1, B5, D3, DiskOf(D1))
  {
    run := Deposed();
    WholeLogTo3();
    Overwrites();
    hide HandleAppendEntries, Replications;
    assert OWED - {1} == map[];
    run := Move(LATE, run, Replicate(1, 2), D1, B5, C3, DiskOf(D1));
    assert Now(LATE, run, D1, B5, C3, DiskOf(D1));
    run := Move(LATE, run, ReceiveAppendReq(3, LATE3), D1, B5, C3, DiskOf(D1));
  }

  // ----- node 3 wins term 3 with the vote of node 1 and commits the write -----

  const E3 := D3.(term := 3, votedFor := Some(3), role := Candidate, votes := [3])
  const ASK1 := VoteReq(3, 1, VoteArgs(3, 3, 2, 1))
  const YES1 := VoteRep(1, 3, 3, VoteResult(3, true))
  const E1 := D1.(term := 3, votedFor := Some(3))
  const NOOP3 := Entry(3, 3, NOOP_COMMAND)
  const F3 := E3.(role := Leader, votes := [3, 1], log := [NOOP1, WRITE, NOOP3],
              next := map[1 := 3, 2 := 3], acked := map[1 := 0, 2 := 0])

  lemma AskedFor3() returns (run: seq<Full>)
    ensures Now(LATE, run, D1, B5, E3, DiskOf(D1)) && InNet(run, ASK1)
  {
    run := Stands3();
    VoteAsked(E3, 1);
    run := Move(LATE, run, RequestVotes(3), D1, B5, E3, DiskOf(D1));
  }

  lemma Stands3() returns (run: seq<Full>)
    ensures Now(LATE, run, D1, B5, E3, DiskOf(D1))
  {
    run := Overwritten();
    assert StartElection(D3) == E3;
    run := Move(LATE, run, Timeout(3), D1, B5, D3, DiskOf(D1));
  }

  lemma Wins3()
    ensures HandleVoteResult(E3, 1, YES1.voted) == (F3, true)
  {
    assert [3] + [1] == [3, 1] && [NOOP1, WRITE] + [NOOP3] == [NOOP1, WRITE, NOOP3];
    assert BecomeLeader(E3.(votes := [3, 1])) == F3;
    hide BecomeLeader;
  }

  lemma Voted3() returns (run: seq<Full>)
    ensures Now(LATE, run, E1, B5, E3, DiskOf(E1)) && InNet(run, YES1)
  {
    run := AskedFor3();
    assert HandleRequestVote(D1, ASK1.vote) == (E1, YES1.voted);
    assert DiskAfterVote(DiskOf(D1), D1, ASK1.vote) == DiskOf(E1);
    hide HandleRequestVote, DiskAfterVote;
    run := Move(LATE, run, ReceiveVoteReq(1, ASK1), D1, B5, E3, DiskOf(D1));
  }

  lemma Leads3() returns (run: seq<Full>)
    ensures Now(LATE, run, E1, B5, F3, DiskOf(E1))
  {
    run := Voted3();
    Wins3();
    hide HandleVoteResult;
    run := Move(LATE, run, ReceiveVoteRep(3, YES1), E1, B5, E3, DiskOf(E1));
  }

  const BEAT1 := AppendReq(3, 1, AppendArgs(3, 3, 2, 1, [NOOP3], 0), 3, None)
  const G1 := E1.(log := [NOOP1, WRITE, NOOP3])
  const DONE := AppendRep(1, 3, 3, 3, None, AppendResult(3, true, None, None))
  const G3 := F3.(next := map[1 := 4, 2 := 3], acked := map[1 := 3, 2 := 0],
              commit := 3, applied := 3, data := map["k" := "v"])

  lemma BeatTo1()
    ensures BEAT1 in Heartbeats(F3)
  {
    var log := [NOOP1, WRITE, NOOP3];
    assert log[..2] == [NOOP1, WRITE] && [NOOP1, WRITE][..1] == [NOOP1] && [NOOP1][..0] == [];
    assert EntriesFrom([NOOP1], 3) == [];
    assert EntriesFrom([NOOP1, WRITE], 3) == [];
    assert EntriesFrom(log, 3) == [NOOP3];
    hide EntriesFrom;
    assert NextFor(F3, 1) == 3;
    BeatSent(F3, 1, BEAT1);
  }

  lemma Stores1()
    ensures HandleAppendEntries(AsWritten, E1, BEAT1.append) == (G1, DONE.appended)
  {
    assert [NOOP3][..0] == [];
    assert [NOOP1, WRITE] + [NOOP3] == [NOOP1, WRITE, NOOP3];
    assert StoreEntries(0, 0, [NOOP1, WRITE], [NOOP3]) == [NOOP1, WRITE, NOOP3];
    hide StoreEntries;
  }

  lemma Commits3()
    ensures HandleAppendResult(F3, 1, 3, DONE.appended) == G3
  {
    var c := RecordReply(F3, 1, 3, DONE.appended);
    assert c == F3.(next := map[1 := 4, 2 := 3], acked := map[1 := 3, 2 := 0]);
    assert Replicated(c.acked, 3) == {1};
    var d := c.(commit := 3);
    KvStore.SetStores(map[], "k", "v");
    assert KvStore.ApplyCommand(map[], NOOP_COMMAND).0 == map[];
    assert KvStore.ApplyCommand(map["k" := "v"], NOOP_COMMAND).0 == map["k" := "v"];
    hide KvStore.ApplyCommand;
    assert ApplyUpTo(d.(applied := 3, data := map["k" := "v"])) == G3;
    assert ApplyUpTo(d.(applied := 2, data := map["k" := "v"])) == G3;
    assert ApplyUpTo(d.(applied := 1)) == G3;
  }

  lemma Sent3() returns (run: seq<Full>)
    ensures Now(LATE, run, E1, B5, F3, DiskOf(E1)) && InNet(run, BEAT1)
  {
    run := Leads3();
    BeatTo1();
    hide Heartbeats;
    run := Move(LATE, run, Heartbeat(3), E1, B5, F3, DiskOf(E1));
  }

  lemma Stored3() returns (run: seq<Full>)
    ensures Now(LATE, run, G1, B5, F3, DiskOf(G1)) && InNet(run, DONE)
  {
    run := Sent3();
    Stores1();
    hide HandleAppendEntries;
    run := Move(LATE, run, ReceiveAppendReq(1, BEAT1), E1, B5, F3, DiskOf(E1));
  }

  /** Without the guard on late replication StateMachineSafety fails: nodes 2 and 3 have applied different
      entries at index 2. */
  lemma LateReplicationBreaksSafety() returns (run: seq<Full>)
    ensures FullRun(AsWritten, LATE, run) && Holds(run, |run| - 1, 2) && Holds(run, |run| - 1, 3)
    ensures var c, d := NodeAt(run, |run| - 1, 2), NodeAt(run, |run| - 1, 3);
            && 2 <= c.applied <= |c.log| && 2 <= d.applied <= |d.log| && c.log[1] != d.log[1]
  {
    run := Committed3();
  }

  lemma Committed3() returns (run: seq<Full>)
    ensures Now(LATE, run, G1, B5, G3, DiskOf(G1))
  {
    run := Stored3();
    Commits3();
    hide HandleAppendResult;
    run := Move(LATE, run, ReceiveAppendRep(3, DONE), G1, B5, F3, DiskOf(G1));
  }
}
