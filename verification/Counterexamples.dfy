/** Concrete runs of three nodes that show which guards of the safety theorems are needed. */
module Counterexamples {
  import opened Types
  import opened CoreSteps
  import opened Cluster
  import opened Safety
  import opened CommitBound
  import KvStore

  const NOOP1 := Entry(1, 1, NOOP_COMMAND)
  const NOOP2 := Entry(2, 2, NOOP_COMMAND)
  const SET := "SET " + "k" + " " + "v"
  const WRITE := Entry(1, 2, SET)

  function Fresh(id: nat, peers: seq<nat>): Core { Boot(id, peers, Stored(0, None, [], None), 0) }

  const A0 := Fresh(1, [2, 3])
  const B0 := Fresh(2, [1, 3])
  const C0 := Fresh(3, [1, 2])

  ghost predicate Stands(rule: CommitRule, run: seq<State>, a: Core, b: Core, c: Core) {
    Run(rule, run) && run[|run| - 1].nodes == map[1 := a, 2 := b, 3 := c]
  }

  ghost predicate Sent(run: seq<State>, m: Message) { run != [] && m in run[|run| - 1].net }

  /** No leadership has been probed yet. */
  ghost predicate Quiet(run: seq<State>) {
    run != [] && forall m <- run[|run| - 1].net | m.AppendReq? || m.AppendRep? :: m.probe.None?
  }

  lemma Begin(rule: CommitRule) returns (run: seq<State>)
    ensures Stands(rule, run, A0, B0, C0) && Quiet(run)
  {
    var s := State(map[1 := A0, 2 := B0, 3 := C0], {});
    run := [s];
    assert s.nodes.Keys == {1, 2, 3};
    assert Configured({1, 2, 3}, 1, A0) && Configured({1, 2, 3}, 2, B0) && Configured({1, 2, 3}, 3, C0);
  }

  lemma Alone(rule: CommitRule, run: seq<State>, a: Core, b: Core, c: Core, a': Core) returns (longer: seq<State>)
    requires Stands(rule, run, a, b, c) && a' == StartElection(a)
    ensures Stands(rule, longer, a', b, c) && (Quiet(run) ==> Quiet(longer))
  {
    longer := Go(rule, run, Timeout(1));
  }

  lemma Go(rule: CommitRule, run: seq<State>, step: Step) returns (longer: seq<State>)
    requires Run(rule, run) && Enabled(run[|run| - 1], step)
    ensures longer == run + [Perform(rule, run[|run| - 1], step)]
    ensures Run(rule, longer)
    ensures run[|run| - 1].net <= longer[|longer| - 1].net
    ensures Quiet(run) && !step.ConfirmLeadership? ==> Quiet(longer)
  {
    longer := run + [Perform(rule, run[|run| - 1], step)];
    RunSnoc(rule, run, Perform(rule, run[|run| - 1], step));
  }

  // ----- node 1 wins term 1 with the vote of node 2 -----

  const A1 := A0.(term := 1, votedFor := Some(1), role := Candidate, votes := [1])
  const B1 := B0.(term := 1, votedFor := Some(1))
  const A2 := A1.(role := Leader, votes := [1, 2], log := [NOOP1],
              next := map[2 := 1, 3 := 1], acked := map[2 := 0, 3 := 0])

  lemma FirstCandidate(rule: CommitRule) returns (run: seq<State>)
    ensures Stands(rule, run, A1, B0, C0) && Quiet(run)
  {
    run := Begin(rule);
    run := Alone(rule, run, A0, B0, C0, A1);
  }

  lemma FirstElection(rule: CommitRule) returns (run: seq<State>)
    ensures Stands(rule, run, A2, B1, C0) && Quiet(run)
  {
    run := FirstCandidate(rule);
    run := Go(rule, run, RequestVotes(1));
    assert Stands(rule, run, A1, B0, C0);
    VoteAsked(A1, 2);
    run := FirstVote(rule, run);
  }

  lemma VoteAsked(c: Core, p: nat)
    requires p in c.peers
    ensures VoteReq(c.id, p, VoteRequest(c)) in VoteRequests(c)
  {
  }

  lemma FirstWin()
    ensures HandleVoteResult(A1, 2, VoteResult(1, true)) == (A2, true)
  {
    assert [1] + [2] == [1, 2];
    assert BecomeLeader(A1.(votes := [1, 2])) == A2;
  }

  lemma FirstVote(rule: CommitRule, asked: seq<State>) returns (run: seq<State>)
    requires Stands(rule, asked, A1, B0, C0) && Sent(asked, VoteReq(1, 2, VoteArgs(1, 1, 0, 0)))
    ensures Stands(rule, run, A2, B1, C0) && (Quiet(asked) ==> Quiet(run))
  {
    run := FirstBallot(rule, asked);
    FirstWin();
    hide HandleVoteResult;
    run := Go(rule, run, ReceiveVoteRep(1, VoteRep(2, 1, 1, VoteResult(1, true))));
  }

  lemma FirstBallot(rule: CommitRule, asked: seq<State>) returns (run: seq<State>)
    requires Stands(rule, asked, A1, B0, C0) && Sent(asked, VoteReq(1, 2, VoteArgs(1, 1, 0, 0)))
    ensures Stands(rule, run, A1, B1, C0) && (Quiet(asked) ==> Quiet(run))
    ensures Sent(run, VoteRep(2, 1, 1, VoteResult(1, true)))
  {
    assert HandleRequestVote(B0, VoteArgs(1, 1, 0, 0)) == (B1, VoteResult(1, true));
    hide HandleRequestVote;
    run := Go(rule, asked, ReceiveVoteReq(2, VoteReq(1, 2, VoteArgs(1, 1, 0, 0))));
  }

  // ----- its no-op reaches nodes 2 and 3 -----

  const B2 := B1.(log := [NOOP1])
  const C1 := C0.(term := 1, log := [NOOP1])

  lemma BeatSent(c: Core, p: nat, m: Message)
    requires p in c.peers
    requires m == AppendReq(c.id, p, AppendRequest(c, p, HeartbeatEntries(c, p)), HeartbeatIndex(c, p), None)
    ensures m in Heartbeats(c)
  {
  }

  lemma FirstNoop() returns (run: seq<State>)
    ensures Stands(AsWritten, run, A2, B2, C1)
  {
    run := FirstElection(AsWritten);
    run := Go(AsWritten, run, Heartbeat(1));
    assert EntriesFrom([NOOP1], 1) == [NOOP1];
    var args := AppendArgs(1, 1, 0, 0, [NOOP1], 0);
    var to2, to3 := AppendReq(1, 2, args, 1, None), AppendReq(1, 3, args, 1, None);
    assert NextFor(A2, 2) == NextFor(A2, 3) == 1;
    BeatSent(A2, 2, to2);
    BeatSent(A2, 3, to3);
    assert Stands(AsWritten, run, A2, B1, C0);
    assert StoreEntries(0, 0, [], [NOOP1]) == [NOOP1];
    run := Go(AsWritten, run, ReceiveAppendReq(2, to2));
    assert Stands(AsWritten, run, A2, B2, C0);
    run := Go(AsWritten, run, ReceiveAppendReq(3, to3));
    assert Stands(AsWritten, run, A2, B2, C1);
  }

  // ----- node 1 appends a write that nobody receives; node 2 wins term 2 with the vote of 3 -----

  const A3 := A2.(log := [NOOP1, WRITE])
  const B3 := B2.(term := 2, votedFor := Some(2), role := Candidate, votes := [2])
  const C2 := C1.(term := 2, votedFor := Some(2))
  const B4 := B3.(role := Leader, votes := [2, 3], log := [NOOP1, NOOP2],
              next := map[1 := 2, 3 := 2], acked := map[1 := 0, 3 := 0])

  lemma UnsentWrite() returns (run: seq<State>)
    ensures Stands(AsWritten, run, A3, B2, C1)
  {
    run := FirstNoop();
    KvStore.SetStores(map[], "k", "v");
    assert [NOOP1] + [WRITE] == [NOOP1, WRITE];
    assert AppendCommand(A2, SET) == Some(A3);
    run := Go(AsWritten, run, Submit(1, SET));
  }

  lemma SecondWin()
    ensures HandleVoteResult(B3, 3, VoteResult(2, true)) == (B4, true)
  {
    assert [2] + [3] == [2, 3] && [NOOP1] + [NOOP2] == [NOOP1, NOOP2];
    assert BecomeLeader(B3.(votes := [2, 3])) == B4;
  }

  lemma SecondElection() returns (run: seq<State>)
    ensures Stands(AsWritten, run, A3, B4, C2)
  {
    run := UnsentWrite();
    run := Go(AsWritten, run, Timeout(2));
    assert Stands(AsWritten, run, A3, B3, C1);
    run := Go(AsWritten, run, RequestVotes(2));
    assert Stands(AsWritten, run, A3, B3, C1);
    VoteAsked(B3, 3);
    run := SecondVote(run);
  }

  lemma SecondVote(asked: seq<State>) returns (run: seq<State>)
    requires Stands(AsWritten, asked, A3, B3, C1) && Sent(asked, VoteReq(2, 3, VoteArgs(2, 2, 1, 1)))
    ensures Stands(AsWritten, run, A3, B4, C2)
  {
    assert HandleRequestVote(C1, VoteArgs(2, 2, 1, 1)) == (C2, VoteResult(2, true));
    hide HandleRequestVote, HandleVoteResult;
    run := Go(AsWritten, asked, ReceiveVoteReq(3, VoteReq(2, 3, VoteArgs(2, 2, 1, 1))));
    assert Stands(AsWritten, run, A3, B3, C2);
    SecondWin();
    run := Go(AsWritten, run, ReceiveVoteRep(2, VoteRep(3, 2, 2, VoteResult(2, true))));
  }

  // ----- node 3 stores the second no-op and node 2 commits it -----

  const C3 := C2.(log := [NOOP1, NOOP2])
  const B5 := B4.(next := map[1 := 2, 3 := 3], acked := map[1 := 0, 3 := 2], commit := 2, applied := 2)

  const BEAT := AppendReq(2, 3, AppendArgs(2, 2, 1, 1, [NOOP2], 0), 2, None)
  const BEAT_OK := AppendRep(3, 2, 2, 2, None, AppendResult(2, true, None, None))

  lemma SecondBeat()
    ensures BEAT in Heartbeats(B4)
    ensures HandleAppendEntries(AsWritten, C2, BEAT.append) == (C3, BEAT_OK.appended)
  {
    assert [NOOP1, NOOP2][..1] == [NOOP1];
    assert EntriesFrom([NOOP1], 2) == [];
    assert EntriesFrom([NOOP1, NOOP2], 2) == [NOOP2];
    assert NextFor(B4, 3) == 2;
    BeatSent(B4, 3, BEAT);
    assert [NOOP2][..0] == [];
    assert StoreEntries(0, 0, [NOOP1], [NOOP2]) == [NOOP1, NOOP2];
  }

  lemma SecondReplication() returns (run: seq<State>)
    ensures Stands(AsWritten, run, A3, B4, C3) && Sent(run, BEAT_OK)
  {
    run := SecondElection();
    SecondBeat();
    run := Go(AsWritten, run, Heartbeat(2));
    assert Stands(AsWritten, run, A3, B4, C2);
    run := Go(AsWritten, run, ReceiveAppendReq(3, BEAT));
  }

  lemma SecondCommit() returns (run: seq<State>)
    ensures Stands(AsWritten, run, A3, B5, C3)
  {
    run := SecondReplication();
    SecondCommitNode();
    run := Go(AsWritten, run, ReceiveAppendRep(2, BEAT_OK));
  }

  lemma SecondCommitNode()
    ensures HandleAppendResult(B4, 3, 2, AppendResult(2, true, None, None)) == B5
  {
    var c := RecordReply(B4, 3, 2, AppendResult(2, true, None, None));
    assert c == B4.(next := map[1 := 2, 3 := 3], acked := map[1 := 0, 3 := 2]);
    assert Replicated(c.acked, 2) == {3};
    var d := c.(commit := 2);
    assert GetEntry(d, 1) == Some(NOOP1) && GetEntry(d, 2) == Some(NOOP2);
    assert ApplyUpTo(d.(applied := 2)) == d.(applied := 2);
    assert ApplyUpTo(d.(applied := 1)) == d.(applied := 2);
    assert ApplyUpTo(d) == d.(applied := 2);
  }

  // ----- node 2 confirms its leadership with an empty probe to node 1 -----

  const A4 := A3.(term := 2, votedFor := None, role := Follower, commit := 2, applied := 2, data := map["k" := "v"])

  const PROBE := AppendArgs(2, 2, 1, 1, [], 2)

  lemma ProbedNode()
    ensures HandleAppendEntries(AsWritten, A3, PROBE) == (A4, AppendResult(2, true, None, None))
  {
    var c := A3.(term := 2, votedFor := None, role := Follower);
    assert CheckPrev(c, 1, 1) == Agrees;
    var d := c.(commit := 2);
    assert GetEntry(d, 1) == Some(NOOP1) && GetEntry(d, 2) == Some(WRITE);
    KvStore.SetStores(map[], "k", "v");
    assert ApplyUpTo(d.(applied := 2, data := map["k" := "v"])) == A4;
    assert ApplyUpTo(d.(applied := 1)) == A4;
    assert ApplyUpTo(d) == A4;
  }

  lemma ProbeSent(c: Core, p: nat, readId: nat)
    requires p in c.peers
    ensures AppendReq(c.id, p, AppendRequest(c, p, []), 0, Some(readId)) in Probes(c, readId)
  {
  }

  const PROBE_MSG := AppendReq(2, 1, PROBE, 0, Some(7))

  lemma SecondProbe() returns (run: seq<State>)
    ensures Stands(AsWritten, run, A3, B5, C3) && Sent(run, PROBE_MSG)
  {
    run := SecondCommit();
    run := Go(AsWritten, run, ConfirmLeadership(2, 7));
    assert NextFor(B5, 1) == 2 && AppendRequest(B5, 1, []) == PROBE;
    ProbeSent(B5, 1, 7);
  }

  lemma ProbeNotHarmless()
    ensures !BoundHarmless(Listening(A3, PROBE), PROBE)
  {
  }

  /** With the source's bound the theorem StateMachineSafety fails: in this run of the source's own
      rule, node 1 and node 2 have both applied two entries and hold different data. The last
      delivery is a leadership probe that is not harmless in the sense of CommitBound. */
  lemma ProbeBreaksSafety() returns (run: seq<State>)
    ensures Run(AsWritten, run) && At(run, |run| - 1, 1) && At(run, |run| - 1, 2)
    ensures var c, d := run[|run| - 1].nodes[1], run[|run| - 1].nodes[2];
            && c.applied == d.applied == 2 == |c.log| == |d.log| && c.log != d.log
            && c.data == map["k" := "v"] && d.data == map[]
    ensures !BoundHarmless(Listening(A3, PROBE), PROBE)
  {
    run := SecondProbe();
    ProbedNode();
    ProbeNotHarmless();
    run := Go(AsWritten, run, ReceiveAppendReq(1, PROBE_MSG));
    assert Stands(AsWritten, run, A4, B5, C3);
    assert A4.log[1] == WRITE && B5.log[1] == NOOP2;
  }
}
