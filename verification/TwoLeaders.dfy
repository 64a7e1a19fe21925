/** A run of the code in which a term that was kept in memory only makes two nodes leaders of one term.
    Every other guard of Disks holds. */
module TwoLeaders {
  import opened Types
  import opened CoreSteps
  import opened Batch
  import opened Cluster
  import opened CommitBound
  import opened Disks
  import opened Counterexamples
  import KvStore

  const UNSETTLED := Guards(false, true, true)

  /** Three nodes, the disk of the first, and nothing left to send. */
  ghost predicate Now(g: Guards, run: seq<Full>, a: Core, b: Core, c: Core, disk: Stored) {
    Nodes(g, run, a, b, c, disk) && Owes(run, map[])
  }

  ghost predicate Nodes(g: Guards, run: seq<Full>, a: Core, b: Core, c: Core, disk: Stored) {
    && FullRun(AsWritten, g, run)
    && run[|run| - 1].state.nodes == map[1 := a, 2 := b, 3 := c]
    && run[|run| - 1].disks.Keys == {1, 2, 3} && run[|run| - 1].disks[1] == disk
  }

  ghost predicate InNet(run: seq<Full>, m: Message) { run != [] && m in run[|run| - 1].state.net }

  lemma Start(g: Guards) returns (run: seq<Full>)
    ensures Now(g, run, A0, B0, C0, DiskOf(A0))
  {
    var nodes := map[1 := A0, 2 := B0, 3 := C0];
    run := [Full(State(nodes, {}), map[1 := DiskOf(A0), 2 := DiskOf(B0), 3 := DiskOf(C0)], map[])];
    assert nodes.Keys == {1, 2, 3};
    assert Configured({1, 2, 3}, 1, A0) && Configured({1, 2, 3}, 2, B0) && Configured({1, 2, 3}, 3, C0);
  }

  lemma Extend(g: Guards, run: seq<Full>, step: Step) returns (longer: seq<Full>)
    requires FullRun(AsWritten, g, run)
    requires CanTake(run[|run| - 1], step) && Guarded(g, run[|run| - 1], step)
    ensures longer == run + [Take(AsWritten, run[|run| - 1], step)] && FullRun(AsWritten, g, longer)
  {
    longer := run + [Take(AsWritten, run[|run| - 1], step)];
    forall k: nat ensures FullAt(AsWritten, g, longer, k) {
      assert FullAt(AsWritten, g, run, k);
    }
  }

  ghost predicate Owes(run: seq<Full>, owed: map<nat, nat>) { run != [] && run[|run| - 1].owed == owed }

  /** One step, and what it leaves alone. */
  lemma Move(g: Guards, run: seq<Full>, step: Step, a: Core, b: Core, c: Core, d: Stored) returns (longer: seq<Full>)
    requires Nodes(g, run, a, b, c, d)
    requires CanTake(run[|run| - 1], step) && Guarded(g, run[|run| - 1], step)
    ensures longer == run + [Take(AsWritten, run[|run| - 1], step)]
    ensures FullRun(AsWritten, g, longer)
    ensures run[|run| - 1].state.net <= longer[|longer| - 1].state.net
    ensures longer[|longer| - 1].disks.Keys == {1, 2, 3}
    ensures step.node != 1 ==> longer[|longer| - 1].disks[1] == d
    ensures !step.Submit? && !step.Replicate? && (Dies(step) ==> Owes(run, map[])) ==>
              Owes(longer, run[|run| - 1].owed)
  {
    longer := Extend(g, run, step);
    if Owes(run, map[]) { assert run[|run| - 1].owed - {step.node} == map[]; }
  }

  // ----- node 1 leads term 1 and all hold its no-op -----

  lemma First(g: Guards) returns (run: seq<Full>)
    ensures Now(g, run, A1, B0, C0, DiskOf(A1)) && InNet(run, VoteReq(1, 2, VoteArgs(1, 1, 0, 0)))
  {
    run := Start(g);
    run := Move(g, run, Timeout(1), A0, B0, C0, DiskOf(A0));
    assert Now(g, run, A1, B0, C0, DiskOf(A1));
    VoteAsked(A1, 2);
    run := Move(g, run, RequestVotes(1), A1, B0, C0, DiskOf(A1));
  }

  lemma FirstVoter(g: Guards) returns (run: seq<Full>)
    ensures Now(g, run, A1, B1, C0, DiskOf(A1)) && InNet(run, VoteRep(2, 1, 1, VoteResult(1, true)))
  {
    run := First(g);
    assert HandleRequestVote(B0, VoteArgs(1, 1, 0, 0)) == (B1, VoteResult(1, true));
    hide HandleRequestVote;
    run := Move(g, run, ReceiveVoteReq(2, VoteReq(1, 2, VoteArgs(1, 1, 0, 0))), A1, B0, C0, DiskOf(A1));
  }

  lemma FirstLeader(g: Guards) returns (run: seq<Full>)
    ensures Now(g, run, A2, B1, C0, DiskOf(A2))
  {
    run := FirstVoter(g);
    FirstWin();
    hide HandleVoteResult;
    run := Move(g, run, ReceiveVoteRep(1, VoteRep(2, 1, 1, VoteResult(1, true))), A1, B1, C0, DiskOf(A1));
  }

  const TO2 := AppendReq(1, 2, AppendArgs(1, 1, 0, 0, [NOOP1], 0), 1, None)
  const TO3 := AppendReq(1, 3, AppendArgs(1, 1, 0, 0, [NOOP1], 0), 1, None)

  lemma NoopSent()
    ensures TO2 in Heartbeats(A2) && TO3 in Heartbeats(A2)
    ensures HandleAppendEntries(AsWritten, B1, TO2.append) == (B2, AppendResult(1, true, None, None))
    ensures HandleAppendEntries(AsWritten, C0, TO3.append) == (C1, AppendResult(1, true, None, None))
  {
    assert EntriesFrom([NOOP1], 1) == [NOOP1];
    assert NextFor(A2, 2) == NextFor(A2, 3) == 1;
    BeatSent(A2, 2, TO2);
    BeatSent(A2, 3, TO3);
    assert StoreEntries(0, 0, [], [NOOP1]) == [NOOP1];
  }

  lemma NoopInNet(g: Guards) returns (run: seq<Full>)
    ensures Now(g, run, A2, B1, C0, DiskOf(A2)) && InNet(run, TO2) && InNet(run, TO3)
  {
    run := FirstLeader(g);
    NoopSent();
    hide HandleAppendEntries, Heartbeats;
    run := Move(g, run, Heartbeat(1), A2, B1, C0, DiskOf(A2));
  }

  lemma NoopStored(g: Guards) returns (run: seq<Full>)
    ensures Now(g, run, A2, B2, C1, DiskOf(A2))
  {
    run := NoopInNet(g);
    NoopSent();
    hide HandleAppendEntries, Heartbeats;
    run := Move(g, run, ReceiveAppendReq(2, TO2), A2, B1, C0, DiskOf(A2));
    assert Now(g, run, A2, B2, C0, DiskOf(A2));
    run := Move(g, run, ReceiveAppendReq(3, TO3), A2, B2, C0, DiskOf(A2));
  }

  // ----- node 1 learns of term 2 from the answer to a probe: its disk keeps term 1 -----

  const ASK2 := VoteReq(2, 1, VoteArgs(2, 2, 1, 1))
  const EMPTY := AppendArgs(1, 1, 0, 0, [], 0)
  const PROBE1 := AppendReq(1, 2, EMPTY, 0, Some(9))
  const NO := AppendRep(2, 1, 1, 0, Some(9), AppendResult(2, false, None, None))
  const A3M := A2.(term := 2, votedFor := None, role := Follower)

  lemma Asked() returns (run: seq<Full>)
    ensures Now(UNSETTLED, run, A2, B3, C1, DiskOf(A2)) && InNet(run, ASK2)
  {
    run := NoopStored(UNSETTLED);
    run := Move(UNSETTLED, run, Timeout(2), A2, B2, C1, DiskOf(A2));
    assert Now(UNSETTLED, run, A2, B3, C1, DiskOf(A2));
    VoteAsked(B3, 1);
    run := Move(UNSETTLED, run, RequestVotes(2), A2, B3, C1, DiskOf(A2));
  }

  lemma Probed() returns (run: seq<Full>)
    ensures Now(UNSETTLED, run, A2, B3, C1, DiskOf(A2)) && InNet(run, ASK2) && InNet(run, PROBE1)
  {
    run := Asked();
    assert NextFor(A2, 2) == 1 && AppendRequest(A2, 2, []) == EMPTY;
    ProbeSent(A2, 2, 9);
    hide Probes;
    run := Move(UNSETTLED, run, ConfirmLeadership(1, 9), A2, B3, C1, DiskOf(A2));
  }

  lemma ProbeAnswered() returns (run: seq<Full>)
    ensures Now(UNSETTLED, run, A2, B3, C1, DiskOf(A2)) && InNet(run, ASK2) && InNet(run, NO)
  {
    run := Probed();
    assert HandleAppendEntries(AsWritten, B3, EMPTY) == (B3, NO.appended);
    assert BoundHarmless(Listening(B3, EMPTY), EMPTY);
    hide HandleAppendEntries, BoundHarmless;
    run := Move(UNSETTLED, run, ReceiveAppendReq(2, PROBE1), A2, B3, C1, DiskOf(A2));
  }

  lemma LearntInMemory() returns (run: seq<Full>)
    ensures Now(UNSETTLED, run, A3M, B3, C1, DiskOf(A2)) && InNet(run, ASK2)
  {
    run := ProbeAnswered();
    run := Move(UNSETTLED, run, ReceiveAppendRep(1, NO), A2, B3, C1, DiskOf(A2));
  }

  // ----- it votes for node 2, dies, and votes for node 3 -----

  const YES2 := VoteRep(1, 2, 2, VoteResult(2, true))
  const YES3 := VoteRep(1, 3, 2, VoteResult(2, true))
  const ASK3 := VoteReq(3, 1, VoteArgs(2, 3, 1, 1))
  const LAGGING := Stored(1, Some(2), [NOOP1], None)
  const A4M := A3M.(votedFor := Some(2))
  const A5 := Boot(1, [2, 3], LAGGING, 0)
  const A6 := A5.(term := 2, votedFor := Some(3))
  const C2C := C1.(term := 2, votedFor := Some(3), role := Candidate, votes := [3])

  lemma VotedOnce() returns (run: seq<Full>)
    ensures Now(UNSETTLED, run, A4M, B3, C1, LAGGING) && InNet(run, YES2)
  {
    run := LearntInMemory();
    assert HandleRequestVote(A3M, ASK2.vote) == (A4M, YES2.voted);
    assert DiskAfterVote(DiskOf(A2), A3M, ASK2.vote) == LAGGING;
    hide HandleRequestVote, DiskAfterVote;
    run := Move(UNSETTLED, run, ReceiveVoteReq(1, ASK2), A3M, B3, C1, DiskOf(A2));
  }

  lemma Restarted() returns (run: seq<Full>)
    ensures Now(UNSETTLED, run, A5, B3, C1, LAGGING) && InNet(run, YES2)
  {
    run := VotedOnce();
    assert Restart(A4M, LAGGING) == A5;
    run := Move(UNSETTLED, run, Crash(1), A4M, B3, C1, LAGGING);
  }

  lemma AskedAgain() returns (run: seq<Full>)
    ensures Now(UNSETTLED, run, A5, B3, C2C, LAGGING) && InNet(run, YES2) && InNet(run, ASK3)
  {
    run := Restarted();
    run := Move(UNSETTLED, run, Timeout(3), A5, B3, C1, LAGGING);
    assert Now(UNSETTLED, run, A5, B3, C2C, LAGGING);
    VoteAsked(C2C, 1);
    run := Move(UNSETTLED, run, RequestVotes(3), A5, B3, C2C, LAGGING);
  }

  lemma VotedTwice() returns (run: seq<Full>)
    ensures Now(UNSETTLED, run, A6, B3, C2C, DiskOf(A6)) && InNet(run, YES2) && InNet(run, YES3)
  {
    run := AskedAgain();
    assert HandleRequestVote(A5, ASK3.vote) == (A6, YES3.voted);
    assert DiskAfterVote(LAGGING, A5, ASK3.vote) == DiskOf(A6);
    hide HandleRequestVote, DiskAfterVote;
    run := Move(UNSETTLED, run, ReceiveVoteReq(1, ASK3), A5, B3, C2C, LAGGING);
  }

  // ----- both lead term 2 -----

  const LB := B3.(role := Leader, votes := [2, 1], log := [NOOP1, NOOP2],
              next := map[1 := 2, 3 := 2], acked := map[1 := 0, 3 := 0])
  const LC := C2C.(role := Leader, votes := [3, 1], log := [NOOP1, NOOP2],
              next := map[1 := 2, 2 := 2], acked := map[1 := 0, 2 := 0])

  lemma Win2()
    ensures HandleVoteResult(B3, 1, YES2.voted) == (LB, true)
  {
    assert [2] + [1] == [2, 1] && [NOOP1] + [NOOP2] == [NOOP1, NOOP2];
    assert BecomeLeader(B3.(votes := [2, 1])) == LB;
    hide BecomeLeader;
  }

  lemma Win3()
    ensures HandleVoteResult(C2C, 1, YES3.voted) == (LC, true)
  {
    assert [3] + [1] == [3, 1] && [NOOP1] + [NOOP2] == [NOOP1, NOOP2];
    assert BecomeLeader(C2C.(votes := [3, 1])) == LC;
    hide BecomeLeader;
  }

  /** Without the guard on restarts ElectionSafety fails: nodes 2 and 3 lead term 2 at once. */
  lemma TwoLeadersRun() returns (run: seq<Full>)
    ensures FullRun(AsWritten, UNSETTLED, run) && Now(UNSETTLED, run, A6, LB, LC, DiskOf(A6))
    ensures LB.role == LC.role == Leader && LB.term == LC.term && LB.id != LC.id
  {
    run := VotedTwice();
    Win2();
    Win3();
    hide HandleVoteResult;
    run := Move(UNSETTLED, run, ReceiveVoteRep(2, YES2), A6, B3, C2C, DiskOf(A6));
    assert Now(UNSETTLED, run, A6, LB, C2C, DiskOf(A6));
    run := Move(UNSETTLED, run, ReceiveVoteRep(3, YES3), A6, LB, C2C, DiskOf(A6));
  }

  // ----- each commits its own command at index 3, with the log of node 1 -----

  const SETA := "SET " + "k" + " " + "a"
  const SETB := "SET " + "k" + " " + "b"
  const EA := Entry(2, 3, SETA)
  const EB := Entry(2, 3, SETB)
  const LOGA := [NOOP1, NOOP2, EA]
  const LOGB := [NOOP1, NOOP2, EB]
  const LB1 := LB.(log := LOGA)
  const LC1 := LC.(log := LOGB)

  lemma BothAppend()
    ensures KvStore.Validate(SETA) && KvStore.Validate(SETB)
    ensures AppendCommand(LB, SETA) == Some(LB1) && AppendCommand(LC, SETB) == Some(LC1)
  {
    KvStore.SetStores(map[], "k", "a");
    KvStore.SetStores(map[], "k", "b");
    hide KvStore.Validate, KvStore.ApplyCommand;
    assert [NOOP1, NOOP2] + [EA] == LOGA && [NOOP1, NOOP2] + [EB] == LOGB;
  }

  lemma BothAppended() returns (run: seq<Full>)
    ensures Nodes(UNSETTLED, run, A6, LB1, LC1, DiskOf(A6)) && Owes(run, map[2 := 3, 3 := 3])
  {
    run := TwoLeadersRun();
    BothAppend();
    hide AppendCommand, KvStore.Validate;
    run := Move(UNSETTLED, run, Submit(2, SETA), A6, LB, LC, DiskOf(A6));
    assert Nodes(UNSETTLED, run, A6, LB1, LC, DiskOf(A6)) && Owes(run, map[2 := 3]);
    run := Move(UNSETTLED, run, Submit(3, SETB), A6, LB1, LC, DiskOf(A6));
  }

  const SEND2 := AppendReq(2, 1, AppendArgs(2, 2, 1, 1, [NOOP2, EA], 0), 3, None)
  const SEND3 := AppendReq(3, 1, AppendArgs(2, 3, 1, 1, [NOOP2, EB], 0), 3, None)
  const A7 := A6.(log := LOGA)
  const OK2 := AppendRep(1, 2, 2, 3, None, AppendResult(2, true, None, None))
  const OK3 := AppendRep(1, 3, 2, 3, None, AppendResult(2, true, None, None))

  lemma RestOfLog(last: Entry)
    requires last.index == 3
    ensures EntriesFrom([NOOP1, NOOP2, last], 2) == [NOOP2, last]
  {
    assert [NOOP1, NOOP2, last][..2] == [NOOP1, NOOP2] && [NOOP1, NOOP2][..1] == [NOOP1] && [NOOP1][..0] == [];
    assert EntriesFrom([NOOP1], 2) == [];
    assert EntriesFrom([NOOP1, NOOP2], 2) == [NOOP2];
  }

  lemma BothSend()
    ensures SEND2 in Replications(LB1, 3) && SEND3 in Replications(LC1, 3)
  {
    RestOfLog(EA);
    RestOfLog(EB);
    EntriesUpToAll(1, [NOOP2, EA], 3);
    EntriesUpToAll(1, [NOOP2, EB], 3);
    hide EntriesFrom, EntriesUpTo;
    assert NextFor(LB1, 1) == NextFor(LC1, 1) == 2;
    assert SEND2 == AppendReq(2, 1, AppendRequest(LB1, 1, SubmitEntries(LB1, 1, 3)), 3, None);
    assert SEND3 == AppendReq(3, 1, AppendRequest(LC1, 1, SubmitEntries(LC1, 1, 3)), 3, None);
  }

  /** Node 1 stores the batch of node 2; that of node 3, with the same terms, then changes nothing. */
  lemma Node1Stores()
    ensures HandleAppendEntries(AsWritten, A6, SEND2.append) == (A7, OK2.appended)
    ensures HandleAppendEntries(AsWritten, A7, SEND3.append) == (A7, OK3.appended)
  {
    assert [NOOP2, EA][..1] == [NOOP2] && [NOOP2, EB][..1] == [NOOP2] && [NOOP2][..0] == [];
    assert StoreEntries(0, 0, [NOOP1], [NOOP2]) == [NOOP1, NOOP2];
    assert StoreEntries(0, 0, [NOOP1], [NOOP2, EA]) == LOGA;
    assert StoreEntries(0, 0, LOGA, [NOOP2]) == LOGA;
    assert StoreEntries(0, 0, LOGA, [NOOP2, EB]) == LOGA;
    hide StoreEntries;
  }

  const LB2 := LB1.(next := map[1 := 4, 3 := 2], acked := map[1 := 3, 3 := 0],
               commit := 3, applied := 3, data := map["k" := "a"])
  const LC2 := LC1.(next := map[1 := 4, 2 := 2], acked := map[1 := 3, 2 := 0],
               commit := 3, applied := 3, data := map["k" := "b"])

  lemma Commit2()
    ensures HandleAppendResult(LB1, 1, 3, OK2.appended) == LB2
  {
    var c := RecordReply(LB1, 1, 3, OK2.appended);
    assert c == LB1.(next := map[1 := 4, 3 := 2], acked := map[1 := 3, 3 := 0]);
    assert Replicated(c.acked, 3) == {1};
    KvStore.SetStores(map[], "k", "a");
    AppliesAll(c.(commit := 3), "a");
  }

  lemma Commit3()
    ensures HandleAppendResult(LC1, 1, 3, OK3.appended) == LC2
  {
    var c := RecordReply(LC1, 1, 3, OK3.appended);
    assert c == LC1.(next := map[1 := 4, 2 := 2], acked := map[1 := 3, 2 := 0]);
    assert Replicated(c.acked, 3) == {1};
    KvStore.SetStores(map[], "k", "b");
    AppliesAll(c.(commit := 3), "b");
  }

  lemma AppliesAll(d: Core, v: string)
    requires d.snapIndex == 0 && d.applied == 0 && d.commit == 3 && d.data == map[] && d.threshold == 0
    requires d.log == [NOOP1, NOOP2, Entry(2, 3, "SET " + "k" + " " + v)]
    ensures ApplyCommitted(d) == d.(applied := 3, data := map["k" := v])
  {
    KvStore.SetStores(map[], "k", v);
    assert KvStore.ApplyCommand(map[], NOOP_COMMAND).0 == map[];
    hide KvStore.ApplyCommand;
    assert ApplyUpTo(d.(applied := 3, data := map["k" := v])) == d.(applied := 3, data := map["k" := v]);
    assert ApplyUpTo(d.(applied := 2)) == d.(applied := 3, data := map["k" := v]);
    assert ApplyUpTo(d.(applied := 1)) == d.(applied := 3, data := map["k" := v]);
  }

  lemma BothSent() returns (run: seq<Full>)
    ensures Now(UNSETTLED, run, A6, LB1, LC1, DiskOf(A6)) && InNet(run, SEND2) && InNet(run, SEND3)
  {
    run := BothAppended();
    BothSend();
    hide Replications;
    assert map[2 := 3, 3 := 3] - {2} == map[3 := 3] && map[3 := 3] - {3} == map[];
    run := Move(UNSETTLED, run, Replicate(2, 3), A6, LB1, LC1, DiskOf(A6));
    assert Nodes(UNSETTLED, run, A6, LB1, LC1, DiskOf(A6)) && Owes(run, map[3 := 3]);
    run := Move(UNSETTLED, run, Replicate(3, 3), A6, LB1, LC1, DiskOf(A6));
  }

  lemma Stored1() returns (run: seq<Full>)
    ensures Now(UNSETTLED, run, A7, LB1, LC1, DiskOf(A7)) && InNet(run, OK2) && InNet(run, OK3)
  {
    run := BothSent();
    Node1Stores();
    hide HandleAppendEntries;
    run := Move(UNSETTLED, run, ReceiveAppendReq(1, SEND2), A6, LB1, LC1, DiskOf(A6));
    assert Now(UNSETTLED, run, A7, LB1, LC1, DiskOf(A7));
    run := Move(UNSETTLED, run, ReceiveAppendReq(1, SEND3), A7, LB1, LC1, DiskOf(A7));
  }

  lemma Committed2() returns (run: seq<Full>)
    ensures Now(UNSETTLED, run, A7, LB2, LC1, DiskOf(A7)) && InNet(run, OK3)
  {
    run := Stored1();
    Commit2();
    hide HandleAppendResult;
    run := Move(UNSETTLED, run, ReceiveAppendRep(2, OK2), A7, LB1, LC1, DiskOf(A7));
  }

  /** Nor do Log Matching and state machine safety hold: the two leaders have applied different entries
      of one term at one index and hold different data. */
  lemma UnsavedTermBreaksSafety() returns (run: seq<Full>)
    ensures FullRun(AsWritten, UNSETTLED, run) && Holds(run, |run| - 1, 2) && Holds(run, |run| - 1, 3)
    ensures var c, d := NodeAt(run, |run| - 1, 2), NodeAt(run, |run| - 1, 3);
            && c.applied == d.applied == 3 == |c.log| == |d.log|
            && c.log[2].term == d.log[2].term && c.log[2] != d.log[2]
            && c.data == map["k" := "a"] && d.data == map["k" := "b"]
  {
    run := Committed2();
    Commit3();
    hide HandleAppendResult;
    run := Move(UNSETTLED, run, ReceiveAppendRep(3, OK3), A7, LB2, LC1, DiskOf(A7));
    assert Now(UNSETTLED, run, A7, LB2, LC2, DiskOf(A7));
    assert SETA[6] != SETB[6];
  }
}
