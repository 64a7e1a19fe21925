/** A run of three nodes in which a new leader, its leadership confirmed, answers a read without a write
    that the old leader has acknowledged: it has not yet committed an entry of its own term
    (src/core/raft_server.rs:247-253). */
module StaleRead {
  import opened Types
  import opened CoreSteps
  import opened Cluster
  import opened Counterexamples
  import opened ReadIndex
  import KvStore

  const LOG := [NOOP1, WRITE]

  // ----- node 1, leader of term 1, writes; nodes 2 and 3 store the write -----

  const L1 := A2.(log := LOG)
  const F2 := B1.(log := LOG)
  const F3 := C0.(term := 1, log := LOG)
  const ARGS := AppendArgs(1, 1, 0, 0, LOG, 0)
  const TO2 := AppendReq(1, 2, ARGS, 2, None)
  const TO3 := AppendReq(1, 3, ARGS, 2, None)
  const OK2 := AppendRep(2, 1, 1, 2, None, AppendResult(1, true, None, None))

  lemma WriteAppended()
    ensures KvStore.Validate(SET) && AppendCommand(A2, SET) == Some(L1)
  {
    KvStore.SetStores(map[], "k", "v");
    hide KvStore.Validate, KvStore.ApplyCommand;
    assert [NOOP1] + [WRITE] == LOG;
  }

  lemma WriteSent()
    ensures TO2 in Replications(L1, 2) && TO3 in Replications(L1, 2)
  {
    WholeLog();
    hide EntriesFrom, EntriesUpTo;
    ReplicationSent(L1, 2, 2);
    ReplicationSent(L1, 3, 2);
  }

  lemma WholeLog()
    ensures EntriesFrom(LOG, 1) == LOG && EntriesUpTo(LOG, 2) == LOG
  {
    assert [NOOP1] + [WRITE] == LOG && LOG[..1] == [NOOP1] && [NOOP1][..0] == [];
    assert EntriesFrom([NOOP1], 1) == [NOOP1];
    assert EntriesUpTo([NOOP1], 2) == [NOOP1];
  }

  lemma ReplicationSent(c: Core, p: nat, index: nat)
    requires p in c.peers
    ensures AppendReq(c.id, p, AppendRequest(c, p, SubmitEntries(c, p, index)), index, None) in Replications(c, index)
  {
  }

  lemma WriteStored()
    ensures HandleAppendEntries(LastNewEntry, B1, ARGS) == (F2, OK2.appended)
    ensures HandleAppendEntries(LastNewEntry, C0, ARGS) == (F3, OK2.appended)
  {
    assert LOG[..1] == [NOOP1] && [NOOP1][..0] == [];
    assert StoreEntries(0, 0, [], [NOOP1]) == [NOOP1];
    assert [NOOP1] + [WRITE] == LOG;
    assert StoreEntries(0, 0, [], LOG) == LOG;
  }

  lemma Written() returns (run: seq<State>)
    ensures Stands(LastNewEntry, run, L1, F2, F3) && Quiet(run) && Sent(run, OK2)
  {
    run := FirstElection(LastNewEntry);
    WriteAppended();
    WriteSent();
    WriteStored();
    hide AppendCommand, HandleAppendEntries, Replications, KvStore.Validate;
    run := Go(LastNewEntry, run, Submit(1, SET));
    assert Stands(LastNewEntry, run, L1, B1, C0);
    run := Go(LastNewEntry, run, Replicate(1, 2));
    assert Stands(LastNewEntry, run, L1, B1, C0);
    run := Go(LastNewEntry, run, ReceiveAppendReq(2, TO2));
    assert Stands(LastNewEntry, run, L1, F2, C0);
    run := Go(LastNewEntry, run, ReceiveAppendReq(3, TO3));
  }

  // ----- node 1 commits and applies the write -----

  const L2 := L1.(next := map[2 := 3, 3 := 1], acked := map[2 := 2, 3 := 0],
              commit := 2, applied := 2, data := map["k" := "v"])

  lemma Acknowledges()
    ensures HandleAppendResult(L1, 2, 2, OK2.appended) == L2
  {
    var c := RecordReply(L1, 2, 2, OK2.appended);
    assert c == L1.(next := map[2 := 3, 3 := 1], acked := map[2 := 2, 3 := 0]);
    assert Replicated(c.acked, 2) == {2};
    var d := c.(commit := 2);
    assert GetEntry(d, 1) == Some(NOOP1) && GetEntry(d, 2) == Some(WRITE);
    KvStore.SetStores(map[], "k", "v");
    assert ApplyUpTo(d.(applied := 2, data := map["k" := "v"])) == L2;
    assert ApplyUpTo(d.(applied := 1)) == L2;
    assert ApplyUpTo(d) == L2;
  }

  lemma Acknowledged() returns (run: seq<State>)
    ensures Stands(LastNewEntry, run, L2, F2, F3) && Quiet(run)
  {
    run := Written();
    Acknowledges();
    run := Go(LastNewEntry, run, ReceiveAppendRep(1, OK2));
  }

  // ----- node 2 wins term 2 with the vote of node 3 -----

  const NOOP3 := Entry(2, 3, NOOP_COMMAND)
  const N1 := F2.(term := 2, votedFor := Some(2), role := Candidate, votes := [2])
  const V3 := F3.(term := 2, votedFor := Some(2))
  const N2 := N1.(role := Leader, votes := [2, 3], log := LOG + [NOOP3],
              next := map[1 := 3, 3 := 3], acked := map[1 := 0, 3 := 0])

  lemma NewWin()
    ensures HandleVoteResult(N1, 3, VoteResult(2, true)) == (N2, true)
  {
    assert [2] + [3] == [2, 3];
    assert BecomeLeader(N1.(votes := [2, 3])) == N2;
  }

  lemma NewLeader() returns (run: seq<State>, b: nat)
    ensures Stands(LastNewEntry, run, L2, N2, V3) && Quiet(run)
    ensures b < |run| && run[b].nodes == map[1 := L2, 2 := F2, 3 := F3]
  {
    run := Acknowledged();
    b := |run| - 1;
    run := Go(LastNewEntry, run, Timeout(2));
    assert Stands(LastNewEntry, run, L2, N1, F3);
    run := Go(LastNewEntry, run, RequestVotes(2));
    assert Stands(LastNewEntry, run, L2, N1, F3);
    VoteAsked(N1, 3);
    ghost var before := run;
    run := NewVote(run);
    assert run[b] == before[b];
  }

  lemma NewVote(asked: seq<State>) returns (run: seq<State>)
    requires Stands(LastNewEntry, asked, L2, N1, F3) && Quiet(asked)
    requires Sent(asked, VoteReq(2, 3, VoteArgs(2, 2, 2, 1)))
    ensures Stands(LastNewEntry, run, L2, N2, V3) && Quiet(run) && asked <= run
  {
    assert HandleRequestVote(F3, VoteArgs(2, 2, 2, 1)) == (V3, VoteResult(2, true));
    run := Go(LastNewEntry, asked, ReceiveVoteReq(3, VoteReq(2, 3, VoteArgs(2, 2, 2, 1))));
    assert Stands(LastNewEntry, run, L2, N1, V3);
    NewWin();
    run := Go(LastNewEntry, run, ReceiveVoteRep(2, VoteRep(3, 2, 2, VoteResult(2, true))));
  }

  // ----- node 2 begins a read and node 3 confirms -----

  const EMPTY := AppendArgs(2, 2, 2, 1, [], 0)
  const YES := AppendRep(3, 2, 2, 0, Some(9), AppendResult(2, true, None, None))

  lemma Confirms3()
    ensures HandleAppendEntries(LastNewEntry, V3, EMPTY) == (V3, YES.appended)
    ensures AppendRequest(N2, 3, []) == EMPTY
  {
    assert NextFor(N2, 3) == 3;
  }

  /** With an entry of an earlier term left to commit the theorem ReadsSeeAcknowledgedWrites fails: at time b
      node 1 leads and has applied a write of key k; at time a, later, node 2 leads and begins a
      read; at time z nodes 2 and 3 have confirmed it; node 2 has applied its read index and does not
      have the key. */
  lemma StaleReadRun() returns (run: seq<State>, b: nat, a: nat, z: nat)
    ensures Run(LastNewEntry, run) && b <= a && ReadConfirmed(run, a, z, 2, {2, 3})
    ensures !OnlyOwnBeyond(run[a].nodes[2]) && run[a].nodes[2].commit == 0
    ensures 1 in run[b].nodes && run[b].nodes[1].role == Leader && run[b].nodes[1].data == map["k" := "v"]
    ensures 2 in run[z].nodes && run[z].nodes[2].applied >= run[a].nodes[2].commit && run[z].nodes[2].data == map[]
  {
    run, b := NewLeader();
    a := |run| - 1;
    var read := run;
    assert YES !in run[a].net;
    run := Go(LastNewEntry, run, ConfirmLeadership(2, 9));
    assert Stands(LastNewEntry, run, L2, N2, V3);
    Confirms3();
    ProbeSent(N2, 3, 9);
    run := Go(LastNewEntry, run, ReceiveAppendReq(3, AppendReq(2, 3, EMPTY, 0, Some(9))));
    assert Stands(LastNewEntry, run, L2, N2, V3);
    z := |run| - 1;
    assert run[a] == read[a] && run[b] == read[b];
    assert run[a].nodes.Keys == {1, 2, 3};
    assert Confirms(YES, 2, 2) && YES in run[z].net && YES.src == 3;
  }
}
