/** A run of three nodes in which a client repeats a write whose first attempt got through unnoticed
    (chaos-test/src/client.rs:223-276 tries again after an error), another write comes between, and the
    recorded history has no linearization. Every step is one that the theorem of Clients allows. */
module RetriedWrite {
  import opened Types
  import opened CoreSteps
  import opened Cluster
  import opened Batch
  import opened Applying
  import AppendSteps
  import opened Counterexamples
  import opened Safety
  import opened ReadIndex
  import opened Origins
  import opened Linearizability
  import opened Locality
  import opened Clients
  import KvStore

  /** A traced run of three nodes of which the third does nothing. */
  ghost predicate Trace(run: seq<State>, steps: seq<Step>, a: Core, b: Core) {
    Traced(run, steps) && run[|run| - 1].nodes == map[1 := a, 2 := b, 3 := C0]
  }

  lemma Take(run: seq<State>, steps: seq<Step>, a: Core, b: Core, step: Step) returns (run': seq<State>)
    requires Trace(run, steps, a, b) && Enabled(run[|run| - 1], step)
    ensures run' == run + [Perform(LastNewEntry, run[|run| - 1], step)] && Traced(run', steps + [step])
    ensures run[|run| - 1].net <= run'[|run'| - 1].net
  {
    run' := run + [Perform(LastNewEntry, run[|run| - 1], step)];
    forall x: nat ensures StepTaken(run', steps + [step], x) { assert StepTaken(run, steps, x); }
  }

  // ----- the leader and its peer -----

  /** Node 1 leads term 1, knows that node 2 holds m entries, and has applied k. */
  function Lead(log: Log, m: nat, k: nat): Core {
    A2.(log := log, next := map[2 := m + 1, 3 := 1], acked := map[2 := m, 3 := 0],
    commit := k, applied := k, data := KvStore.Replay(log[..Min(k, |log|)]))
  }

  function Follow(log: Log, k: nat): Core {
    B1.(log := log, commit := k, applied := k, data := KvStore.Replay(log[..Min(k, |log|)]))
  }

  predicate OwnTerm(log: Log) { Contiguous(0, log) && forall k | 0 <= k < |log| :: log[k].term == 1 }

  lemma Appends(log: Log, m: nat, k: nat, command: string)
    requires OwnTerm(log) && k <= |log|
    ensures var e := Entry(1, |log| + 1, command);
            && OwnTerm(log + [e])
            && AppendCommand(Lead(log, m, k), command) == Some(Lead(log + [e], m, k))
  {
    assert (log + [Entry(1, |log| + 1, command)])[..k] == log[..k];
  }

  /** What the leader sends of its log after the m entries that node 2 holds. */
  function RestFrom(log: Log, m: nat, k: nat): AppendArgs
    requires m <= |log|
  {
    AppendArgs(1, 1, m, if m > 0 then 1 else 0, log[m..], k)
  }

  const OK := AppendResult(1, true, None, None)

  lemma Sends(log: Log, m: nat, k: nat)
    requires OwnTerm(log) && m <= |log|
    ensures AppendReq(1, 2, RestFrom(log, m, k), |log|, None) in Replications(Lead(log, m, k), |log|)
  {
    var c := Lead(log, m, k);
    AppendSteps.SubmitEntriesAreSuffix(c, 2);
    hide SubmitEntries, HeartbeatEntries, Contiguous;
    assert NextFor(c, 2) == m + 1 && 2 in c.peers;
    assert AppendRequest(c, 2, SubmitEntries(c, 2, |log|)) == RestFrom(log, m, k);
  }

  lemma StoresRest(log: Log, m: nat)
    requires OwnTerm(log) && m <= |log|
    ensures StoreEntries(0, 0, log[..m], log[m..]) == log
  {
    SuffixContiguous(0, log, m);
    StoreEntriesIsMerge(0, log[..m], m, log[m..]);
    FirstClashUnique(log[..m], m, log[m..], 0);
    assert log[..m][..m] + log[m..] == log;
  }

  lemma Commits(c: Core, k: nat)
    requires c.snapIndex == 0 && c.threshold == 0 && c.applied <= k <= |c.log|
    requires c.data == KvStore.Replay(c.log[..c.applied])
    ensures ApplyCommitted(c.(commit := k)) == c.(commit := k, applied := k, data := KvStore.Replay(c.log[..k]))
  {
    ApplyUpToReplays(c.(commit := k));
  }

  lemma Stores(log: Log, m: nat, k: nat, k': nat)
    requires OwnTerm(log) && k' <= k <= m <= |log|
    ensures HandleAppendEntries(LastNewEntry, Follow(log[..m], k'), RestFrom(log, m, k)) == (Follow(log, k), OK)
  {
    var c, c1 := Follow(log[..m], k'), Follow(log, k');
    assert log[..m][..k'] == log[..k'];
    StoresRest(log, m);
    Commits(c1, k);
    hide StoreEntries, ApplyCommitted, KvStore.Replay;
    assert c.(log := log) == c1;
    assert m > 0 ==> log[..m][m - 1] == log[m - 1];
    assert CheckPrev(c, m, RestFrom(log, m, k).prevLogTerm) == Agrees;
    assert AcceptEntries(LastNewEntry, c, RestFrom(log, m, k)) == Follow(log, k);
  }

  lemma Counts(log: Log, m: nat, k: nat)
    requires OwnTerm(log) && k <= |log| && m < |log| && k < |log|
    ensures HandleAppendResult(Lead(log, m, k), 2, |log|, OK) == Lead(log, |log|, |log|)
  {
    var n := |log|;
    var c := Lead(log, m, k).(next := map[2 := n + 1, 3 := 1], acked := map[2 := n, 3 := 0]);
    Records(log, m, k);
    assert Replicated(c.acked, n) == {2};
    Commits(c, n);
    assert log[..n] == log;
    hide ApplyCommitted, RecordReply, Replicated, KvStore.Replay;
  }

  lemma Records(log: Log, m: nat, k: nat)
    requires m < |log|
    ensures RecordReply(Lead(log, m, k), 2, |log|, OK)
         == Lead(log, m, k).(next := map[2 := |log| + 1, 3 := 1], acked := map[2 := |log|, 3 := 0])
  {
    hide KvStore.Replay;
  }

  // ----- the run in pieces -----

  ghost predicate ProbesBelow(run: seq<State>, id: nat) {
    run != [] && forall m <- run[|run| - 1].net | m.AppendReq? || m.AppendRep? :: m.probe.None? || m.probe.value < id
  }

  /** The run goes on, by steps of which only the first may be a submission. */
  ghost predicate GoesOn(run: seq<State>, steps: seq<Step>, run': seq<State>, steps': seq<Step>) {
    run <= run' && steps <= steps' && forall x | |steps| < x < |steps'| :: !steps'[x].Submit?
  }

  const ASK := VoteReq(1, 2, VoteArgs(1, 1, 0, 0))
  const VOTE := VoteRep(2, 1, 1, VoteResult(1, true))
  const FIRST := [Timeout(1), RequestVotes(1)]

  const START := State(map[1 := A0, 2 := B0, 3 := C0], {})

  lemma Started()
    ensures Trace([START], [], A0, B0) && ProbesBelow([START], 0)
  {
    assert START.nodes.Keys == {1, 2, 3};
    assert Configured({1, 2, 3}, 1, A0) && Configured({1, 2, 3}, 2, B0) && Configured({1, 2, 3}, 3, C0);
  }

  lemma Standing() returns (run: seq<State>)
    ensures Trace(run, [Timeout(1)], A1, B0) && ProbesBelow(run, 0)
  {
    Started();
    assert StartElection(A0) == A1 && [] + [Timeout(1)] == [Timeout(1)];
    hide Trace, ProbesBelow;
    run := TimedOut([START], [], A0, B0);
  }

  lemma TimedOut(run: seq<State>, steps: seq<Step>, a: Core, b: Core) returns (run': seq<State>)
    requires Trace(run, steps, a, b) && ProbesBelow(run, 0)
    ensures Trace(run', steps + [Timeout(1)], StartElection(a), b) && ProbesBelow(run', 0)
  {
    run' := Take(run, steps, a, b, Timeout(1));
  }

  lemma Asking() returns (run: seq<State>)
    ensures Trace(run, FIRST, A1, B0) && ProbesBelow(run, 0) && ASK in run[|run| - 1].net
  {
    run := Standing();
    VoteAsked(A1, 2);
    run := Take(run, [Timeout(1)], A1, B0, RequestVotes(1));
    assert [Timeout(1)] + [RequestVotes(1)] == FIRST;
  }

  lemma Voted() returns (run: seq<State>)
    ensures Trace(run, FIRST + [ReceiveVoteReq(2, ASK)], A1, B1) && ProbesBelow(run, 0) && VOTE in run[|run| - 1].net
  {
    assert HandleRequestVote(B0, ASK.vote) == (B1, VOTE.voted);
    hide HandleRequestVote;
    run := Asking();
    run := Take(run, FIRST, A1, B0, ReceiveVoteReq(2, ASK));
  }

  const WON := FIRST + [ReceiveVoteReq(2, ASK)] + [ReceiveVoteRep(1, VOTE)]

  lemma Won() returns (run: seq<State>)
    ensures Trace(run, WON, A2, B1) && ProbesBelow(run, 0)
  {
    FirstWin();
    hide HandleVoteResult;
    run := Voted();
    run := Take(run, FIRST + [ReceiveVoteReq(2, ASK)], A1, B1, ReceiveVoteRep(1, VOTE));
  }

  lemma Elected() returns (run: seq<State>)
    ensures Trace(run, WON, Lead([NOOP1], 0, 0), Follow([], 0)) && ProbesBelow(run, 0)
  {
    assert Lead([NOOP1], 0, 0) == A2 && Follow([], 0) == B1;
    hide Lead, Follow, Trace;
    run := Won();
  }

  lemma Submitting(run: seq<State>, steps: seq<Step>, log: Log, m: nat, k: nat, b: Core, command: string, id: nat)
    returns (run': seq<State>)
    requires Trace(run, steps, Lead(log, m, k), b) && ProbesBelow(run, id)
    requires OwnTerm(log) && k <= m <= |log| && KvStore.Validate(command)
    ensures var log' := log + [Entry(1, |log| + 1, command)];
            && Trace(run', steps + [Submit(1, command)], Lead(log', m, k), b)
            && run <= run' && ProbesBelow(run', id) && OwnTerm(log')
  {
    Appends(log, m, k, command);
    hide AppendCommand, OwnTerm, KvStore.Validate;
    assert Lead(log, m, k).role == Leader;
    run' := Take(run, steps, Lead(log, m, k), b, Submit(1, command));
  }

  lemma Sending(run: seq<State>, steps: seq<Step>, log: Log, m: nat, k: nat, b: Core, id: nat)
    returns (run': seq<State>)
    requires OwnTerm(log) && m <= |log| && log != [] && Trace(run, steps, Lead(log, m, k), b) && ProbesBelow(run, id)
    ensures Trace(run', steps + [Replicate(1, |log|)], Lead(log, m, k), b) && run <= run' && ProbesBelow(run', id)
    ensures AppendReq(1, 2, RestFrom(log, m, k), |log|, None) in run'[|run'| - 1].net
  {
    Sends(log, m, k);
    assert Lead(log, m, k).role == Leader && LastLogIndex(Lead(log, m, k)) == |log|;
    hide Replications, OwnTerm, RestFrom;
    run' := Take(run, steps, Lead(log, m, k), b, Replicate(1, |log|));
  }

  lemma Stored(run: seq<State>, steps: seq<Step>, log: Log, m: nat, k: nat, k': nat, id: nat)
    returns (run': seq<State>, steps': seq<Step>)
    requires OwnTerm(log) && k' <= k <= m <= |log|
    requires Trace(run, steps, Lead(log, m, k), Follow(log[..m], k')) && ProbesBelow(run, id)
    requires AppendReq(1, 2, RestFrom(log, m, k), |log|, None) in run[|run| - 1].net
    ensures Trace(run', steps', Lead(log, m, k), Follow(log, k)) && ProbesBelow(run', id)
    ensures run <= run' && steps <= steps' && |steps'| == |steps| + 1 && !steps'[|steps|].Submit?
    ensures AppendRep(2, 1, 1, |log|, None, OK) in run'[|run'| - 1].net
  {
    var req := AppendReq(1, 2, RestFrom(log, m, k), |log|, None);
    Stores(log, m, k, k');
    hide HandleAppendEntries, OwnTerm;
    run' := Take(run, steps, Lead(log, m, k), Follow(log[..m], k'), ReceiveAppendReq(2, req));
    steps' := steps + [ReceiveAppendReq(2, req)];
  }

  lemma Counted(run: seq<State>, steps: seq<Step>, log: Log, m: nat, k: nat, b: Core, id: nat)
    returns (run': seq<State>, steps': seq<Step>)
    requires OwnTerm(log) && k <= m < |log| && Trace(run, steps, Lead(log, m, k), b) && ProbesBelow(run, id)
    requires AppendRep(2, 1, 1, |log|, None, OK) in run[|run| - 1].net
    ensures Trace(run', steps', Lead(log, |log|, |log|), b) && ProbesBelow(run', id)
    ensures run <= run' && steps <= steps' && |steps'| == |steps| + 1 && !steps'[|steps|].Submit?
  {
    var rep := AppendRep(2, 1, 1, |log|, None, OK);
    Counts(log, m, k);
    hide HandleAppendResult, OwnTerm;
    run' := Take(run, steps, Lead(log, m, k), b, ReceiveAppendRep(1, rep));
    steps' := steps + [ReceiveAppendRep(1, rep)];
  }

  /** A command is submitted, sent, stored and committed. */
  lemma Round(run: seq<State>, steps: seq<Step>, log: Log, m: nat, k: nat, k': nat, command: string, id: nat)
    returns (run': seq<State>, steps': seq<Step>)
    requires OwnTerm(log) && k' <= k <= m <= |log| && KvStore.Validate(command)
    requires Trace(run, steps, Lead(log, m, k), Follow(log[..m], k')) && ProbesBelow(run, id)
    ensures var log' := log + [Entry(1, |log| + 1, command)];
            Trace(run', steps', Lead(log', |log'|, |log'|), Follow(log', k)) && OwnTerm(log')
    ensures ProbesBelow(run', id) && GoesOn(run, steps, run', steps') && |steps'| == |steps| + 4
    ensures steps'[|steps|] == Submit(1, command)
  {
    var log' := log + [Entry(1, |log| + 1, command)];
    assert log'[..m] == log[..m];
    hide Trace, ProbesBelow, Lead, Follow, OwnTerm, KvStore.Validate, RestFrom;
    var sent := SubmittedAndSent(run, steps, log, m, k, Follow(log[..m], k'), command, id);
    var steps0 := steps + [Submit(1, command)] + [Replicate(1, |log'|)];
    run', steps' := Committed(sent, steps0, log', m, k, k', id);
    FourMore(steps, steps0, steps', Submit(1, command), |log'|);
  }

  lemma FourMore(steps: seq<Step>, steps0: seq<Step>, steps': seq<Step>, step: Step, index: nat)
    requires steps0 == steps + [step] + [Replicate(1, index)] && steps0 <= steps' && |steps'| == |steps0| + 2
    requires !steps'[|steps0|].Submit? && !steps'[|steps0| + 1].Submit?
    ensures steps <= steps' && |steps'| == |steps| + 4 && steps'[|steps|] == step
    ensures forall x | |steps| < x < |steps'| :: !steps'[x].Submit?
  {
    assert steps'[..|steps0|] == steps0;
    assert steps'[|steps|] == steps0[|steps|] && steps'[|steps| + 1] == steps0[|steps| + 1];
  }

  lemma SubmittedAndSent(run: seq<State>, steps: seq<Step>, log: Log, m: nat, k: nat, b: Core, command: string, id: nat)
    returns (run': seq<State>)
    requires Trace(run, steps, Lead(log, m, k), b) && ProbesBelow(run, id)
    requires OwnTerm(log) && k <= m <= |log| && KvStore.Validate(command)
    ensures var log' := log + [Entry(1, |log| + 1, command)];
            && Trace(run', steps + [Submit(1, command)] + [Replicate(1, |log'|)], Lead(log', m, k), b)
            && run <= run' && ProbesBelow(run', id) && OwnTerm(log')
            && AppendReq(1, 2, RestFrom(log', m, k), |log'|, None) in run'[|run'| - 1].net
  {
    hide Trace, ProbesBelow, Lead, OwnTerm, KvStore.Validate, RestFrom;
    var submitted := Submitting(run, steps, log, m, k, b, command, id);
    run' := Sending(submitted, steps + [Submit(1, command)], log + [Entry(1, |log| + 1, command)], m, k, b, id);
  }

  lemma Committed(run: seq<State>, steps: seq<Step>, log: Log, m: nat, k: nat, k': nat, id: nat)
    returns (run': seq<State>, steps': seq<Step>)
    requires OwnTerm(log) && k' <= k <= m < |log|
    requires Trace(run, steps, Lead(log, m, k), Follow(log[..m], k')) && ProbesBelow(run, id)
    requires AppendReq(1, 2, RestFrom(log, m, k), |log|, None) in run[|run| - 1].net
    ensures Trace(run', steps', Lead(log, |log|, |log|), Follow(log, k)) && ProbesBelow(run', id)
    ensures run <= run' && steps <= steps' && |steps'| == |steps| + 2
    ensures !steps'[|steps|].Submit? && !steps'[|steps| + 1].Submit?
  {
    hide Trace, ProbesBelow, Lead, Follow, OwnTerm, RestFrom;
    var stored;
    stored, steps' := Stored(run, steps, log, m, k, k', id);
    run', steps' := Counted(stored, steps', log, m, k, Follow(log, k), id);
  }

  lemma Probing(run: seq<State>, steps: seq<Step>, log: Log, b: Core, id: nat) returns (run': seq<State>)
    requires OwnTerm(log) && Trace(run, steps, Lead(log, |log|, |log|), b) && ProbesBelow(run, id)
    ensures Trace(run', steps + [ConfirmLeadership(1, id)], Lead(log, |log|, |log|), b) && ProbesBelow(run', id + 1)
    ensures run <= run' && |run'| == |run| + 1
    ensures AppendReq(1, 2, RestFrom(log, |log|, |log|), 0, Some(id)) in run'[|run'| - 1].net
  {
    var n, a := |log|, Lead(log, |log|, |log|);
    assert log[n..] == [];
    assert NextFor(a, 2) == n + 1 && AppendRequest(a, 2, []) == RestFrom(log, n, n);
    ProbeSent(a, 2, id);
    run' := Take(run, steps, a, b, ConfirmLeadership(1, id));
  }

  /** A read begins and node 2 confirms it. */
  lemma ReadRound(run: seq<State>, steps: seq<Step>, log: Log, k: nat, id: nat)
    returns (run': seq<State>, steps': seq<Step>)
    requires Trace(run, steps, Lead(log, |log|, |log|), Follow(log, k)) && ProbesBelow(run, id)
    requires OwnTerm(log) && k <= |log|
    ensures Trace(run', steps', Lead(log, |log|, |log|), Follow(log, |log|)) && ProbesBelow(run', id + 1)
    ensures run <= run' && steps <= steps' && |steps'| == |steps| + 2
    ensures forall x | |steps| <= x < |steps'| :: !steps'[x].Submit?
    ensures ReadConfirmed(run', |run| - 1, |run| + 1, 1, {1, 2})
  {
    var n, a := |log|, Lead(log, |log|, |log|);
    var probe, yes := AppendReq(1, 2, RestFrom(log, n, n), 0, Some(id)), AppendRep(2, 1, 1, 0, Some(id), OK);
    assert log[..n] == log;
    Stores(log, n, n, k);
    hide HandleAppendEntries, OwnTerm, Follow;
    run' := Probing(run, steps, log, Follow(log, k), id);
    run' := Take(run', steps + [ConfirmLeadership(1, id)], a, Follow(log, k), ReceiveAppendReq(2, probe));
    steps' := steps + [ConfirmLeadership(1, id)] + [ReceiveAppendReq(2, probe)];
    assert yes in run'[|run| + 1].net && yes !in run[|run| - 1].net && Confirms(yes, 1, 1);
    assert run'[|run| - 1] == run[|run| - 1] && run[|run| - 1].nodes.Keys == {1, 2, 3};
  }

  // ----- the run -----

  const SETA := "SET " + "k" + " " + "a"
  const SETB := "SET " + "k" + " " + "b"
  const LOG1 := [NOOP1] + [Entry(1, 2, SETA)]
  const LOG2 := LOG1 + [Entry(1, 3, SETB)]
  const LOG3 := LOG2 + [Entry(1, 4, SETA)]

  ghost predicate NodeIs(run: seq<State>, b: nat, c: Core) { At(run, b, 1) && run[b].nodes[1] == c }

  /** Which of the steps are submissions. */
  predicate SubmitsAre(steps: seq<Step>, commands: map<nat, string>) {
    && (forall x <- commands :: x < |steps| && steps[x] == Submit(1, commands[x]))
    && (forall x | 0 <= x < |steps| && steps[x].Submit? :: x in commands)
  }

  lemma OneMore(run: seq<State>, steps: seq<Step>, run': seq<State>, steps': seq<Step>, commands: map<nat, string>,
                command: string)
    requires SubmitsAre(steps, commands) && GoesOn(run, steps, run', steps')
    requires |steps| < |steps'| && steps'[|steps|] == Submit(1, command)
    ensures SubmitsAre(steps', commands[|steps| := command])
  {
    forall x | 0 <= x < |steps'| && steps'[x].Submit? ensures x in commands[|steps| := command] {
      if x < |steps| { assert steps[x] == steps'[x]; }
    }
  }

  lemma Kept(run: seq<State>, run': seq<State>)
    requires run <= run'
    ensures forall b: nat, c | NodeIs(run, b, c) :: NodeIs(run', b, c)
    ensures forall a: nat, z: nat, i, q | ReadConfirmed(run, a, z, i, q) :: ReadConfirmed(run', a, z, i, q)
  {
    forall a: nat, z: nat, i, q | ReadConfirmed(run, a, z, i, q) ensures ReadConfirmed(run', a, z, i, q) {
      assert run'[a] == run[a] && run'[z] == run[z];
    }
  }

  lemma Valid()
    ensures KvStore.Validate(SETA) && KvStore.Validate(SETB)
  {
    KvStore.SetStores(map[], "k", "a");
    KvStore.SetStores(map[], "k", "b");
  }

  /** The run so far and the submissions in it. */
  ghost predicate Ready(run: seq<State>, steps: seq<Step>, log: Log, m: nat, k: nat, k': nat, id: nat,
                        commands: map<nat, string>) {
    && OwnTerm(log) && k' <= k <= m <= |log| && SubmitsAre(steps, commands)
    && Trace(run, steps, Lead(log, m, k), Follow(log[..m], k')) && ProbesBelow(run, id)
  }

  lemma TraceEnd(run: seq<State>, steps: seq<Step>, a: Core, b: Core)
    requires Trace(run, steps, a, b)
    ensures |run| == |steps| + 1 && NodeIs(run, |steps|, a)
  {
  }

  lemma Writes(run: seq<State>, steps: seq<Step>, log: Log, m: nat, k: nat, k': nat, id: nat,
               commands: map<nat, string>, command: string) returns (run': seq<State>, steps': seq<Step>)
    requires Ready(run, steps, log, m, k, k', id, commands) && KvStore.Validate(command)
    ensures var log' := log + [Entry(1, |log| + 1, command)];
            && Ready(run', steps', log', |log'|, |log'|, k, id, commands[|steps| := command])
            && NodeIs(run', |steps'|, Lead(log', |log'|, |log'|))
    ensures run <= run' && |steps'| == |steps| + 4
  {
    hide Trace, ProbesBelow, Lead, Follow, OwnTerm, SubmitsAre, KvStore.Validate;
    var log' := log + [Entry(1, |log| + 1, command)];
    run', steps' := Round(run, steps, log, m, k, k', command, id);
    OneMore(run, steps, run', steps', commands, command);
    TraceEnd(run', steps', Lead(log', |log'|, |log'|), Follow(log', k));
    assert log'[..|log'|] == log';
  }

  lemma Reads(run: seq<State>, steps: seq<Step>, log: Log, k: nat, id: nat, commands: map<nat, string>)
    returns (run': seq<State>, steps': seq<Step>)
    requires Ready(run, steps, log, |log|, |log|, k, id, commands)
    ensures Ready(run', steps', log, |log|, |log|, |log|, id + 1, commands) && run <= run'
    ensures |steps'| == |steps| + 2 && NodeIs(run', |steps'|, Lead(log, |log|, |log|))
    ensures ReadConfirmed(run', |steps|, |steps| + 2, 1, {1, 2})
  {
    assert log[..|log|] == log;
    TraceEnd(run, steps, Lead(log, |log|, |log|), Follow(log, k));
    hide Trace, ProbesBelow, Lead, Follow, OwnTerm, ReadConfirmed;
    run', steps' := ReadRound(run, steps, log, k, id);
    TraceEnd(run', steps', Lead(log, |log|, |log|), Follow(log, |log|));
  }

  lemma WrittenOnce() returns (run: seq<State>, steps: seq<Step>)
    ensures Ready(run, steps, LOG1, 2, 2, 0, 0, map[4 := SETA])
    ensures |steps| == 8 && NodeIs(run, 4, Lead([NOOP1], 0, 0)) && NodeIs(run, 8, Lead(LOG1, 2, 2))
  {
    Valid();
    var before := Elected();
    TraceEnd(before, WON, Lead([NOOP1], 0, 0), Follow([], 0));
    assert [NOOP1][..0] == [] && Ready(before, WON, [NOOP1], 0, 0, 0, 0, map[]);
    hide Ready, Lead, KvStore.Validate;
    run, steps := Writes(before, WON, [NOOP1], 0, 0, 0, 0, map[], SETA);
    Kept(before, run);
  }

  lemma ReadOnce() returns (run: seq<State>, steps: seq<Step>)
    ensures Ready(run, steps, LOG1, 2, 2, 2, 1, map[4 := SETA])
    ensures |steps| == 10 && NodeIs(run, 4, Lead([NOOP1], 0, 0)) && NodeIs(run, 8, Lead(LOG1, 2, 2))
    ensures NodeIs(run, 10, Lead(LOG1, 2, 2)) && ReadConfirmed(run, 8, 10, 1, {1, 2})
  {
    var before, steps0 := WrittenOnce();
    hide Ready, Lead, ReadConfirmed;
    run, steps := Reads(before, steps0, LOG1, 0, 0, map[4 := SETA]);
    Kept(before, run);
  }

  lemma Idle(run: seq<State>, steps: seq<Step>, a: Core, b: Core, id: nat) returns (run': seq<State>)
    requires Trace(run, steps, a, b) && ProbesBelow(run, id)
    ensures Trace(run', steps + [Crash(3)], a, b) && ProbesBelow(run', id) && run <= run'
  {
    assert Restart(C0, DiskOf(C0)) == C0;
    run' := Take(run, steps, a, b, Crash(3));
  }

  lemma Idles(run: seq<State>, steps: seq<Step>, log: Log, m: nat, k: nat, k': nat, id: nat,
              commands: map<nat, string>) returns (run': seq<State>)
    requires Ready(run, steps, log, m, k, k', id, commands)
    ensures Ready(run', steps + [Crash(3)], log, m, k, k', id, commands)
    ensures run <= run' && NodeIs(run', |steps| + 1, Lead(log, m, k))
  {
    hide Trace, ProbesBelow, Lead, Follow;
    run' := Idle(run, steps, Lead(log, m, k), Follow(log[..m], k'), id);
    TraceEnd(run', steps + [Crash(3)], Lead(log, m, k), Follow(log[..m], k'));
  }

  /** What is known of the run up to the first read. */
  ghost predicate Past(run: seq<State>) {
    && NodeIs(run, 4, Lead([NOOP1], 0, 0)) && NodeIs(run, 10, Lead(LOG1, 2, 2)) && NodeIs(run, 11, Lead(LOG1, 2, 2))
    && NodeIs(run, 8, Lead(LOG1, 2, 2)) && ReadConfirmed(run, 8, 10, 1, {1, 2})
  }

  lemma PastKept(run: seq<State>, run': seq<State>)
    requires run <= run' && Past(run)
    ensures Past(run')
  {
    Kept(run, run');
    hide Lead, ReadConfirmed;
  }

  lemma Idled() returns (run: seq<State>, steps: seq<Step>)
    ensures Ready(run, steps, LOG1, 2, 2, 2, 1, map[4 := SETA]) && |steps| == 11 && Past(run)
  {
    var before, steps0 := ReadOnce();
    hide Ready, Lead, ReadConfirmed;
    run := Idles(before, steps0, LOG1, 2, 2, 2, 1, map[4 := SETA]);
    steps := steps0 + [Crash(3)];
    Kept(before, run);
  }

  lemma WrittenBetween() returns (run: seq<State>, steps: seq<Step>)
    ensures Ready(run, steps, LOG2, 3, 3, 2, 1, map[4 := SETA, 11 := SETB])
    ensures |steps| == 15 && Past(run) && NodeIs(run, 15, Lead(LOG2, 3, 3))
  {
    Valid();
    var before, steps0 := Idled();
    hide Ready, Lead, KvStore.Validate, Past;
    run, steps := Writes(before, steps0, LOG1, 2, 2, 2, 1, map[4 := SETA], SETB);
    PastKept(before, run);
  }

  lemma WrittenTwice() returns (run: seq<State>, steps: seq<Step>)
    ensures Ready(run, steps, LOG3, 4, 4, 3, 1, map[4 := SETA, 11 := SETB, 15 := SETA])
    ensures |steps| == 19 && Past(run) && NodeIs(run, 15, Lead(LOG2, 3, 3)) && NodeIs(run, 19, Lead(LOG3, 4, 4))
  {
    Valid();
    var before, steps0 := WrittenBetween();
    hide Ready, Lead, KvStore.Validate, Past;
    run, steps := Writes(before, steps0, LOG2, 3, 3, 2, 1, map[4 := SETA, 11 := SETB], SETA);
    PastKept(before, run);
    Kept(before, run);
  }

  lemma ReadTwice() returns (run: seq<State>, steps: seq<Step>)
    ensures Traced(run, steps) && |steps| == 21 && Past(run)
    ensures NodeIs(run, 15, Lead(LOG2, 3, 3)) && NodeIs(run, 19, Lead(LOG3, 4, 4)) && NodeIs(run, 21, Lead(LOG3, 4, 4))
    ensures ReadConfirmed(run, 19, 21, 1, {1, 2})
    ensures SubmitsAre(steps, map[4 := SETA, 11 := SETB, 15 := SETA])
  {
    var before, steps0 := WrittenTwice();
    hide Lead, Follow, OwnTerm, Past, ReadConfirmed, ProbesBelow, Traced;
    run, steps := Reads(before, steps0, LOG3, 3, 1, map[4 := SETA, 11 := SETB, 15 := SETA]);
    PastKept(before, run);
    Kept(before, run);
  }

  // ----- the record -----

  const OPS := [
    Operation(0, 1, "k", Write("a"), 0, 19, WriteOk),
    Operation(1, 2, "k", Read, 8, 10, ReadOk(Some("a"))),
    Operation(2, 3, "k", Write("b"), 11, 15, WriteOk),
    Operation(3, 2, "k", Read, 19, 21, ReadOk(Some("a")))]

  const CALLS := [Sent({4, 15}), Asked(1, 8, 10, {1, 2}, 10), Sent({11}), Asked(1, 19, 21, {1, 2}, 21)]

  lemma AfterSet(log: Log, n: nat, value: string)
    ensures KvStore.Replay(log + [Entry(1, n, "SET " + "k" + " " + value)]) == KvStore.Replay(log)["k" := value]
  {
    var command := "SET " + "k" + " " + value;
    var longer := log + [Entry(1, n, command)];
    assert longer[..|log|] == log && longer[|log|].command == command;
    KvStore.SetStores(KvStore.Replay(log), "k", value);
    hide KvStore.ApplyCommand;
  }

  lemma Replays()
    ensures KvStore.Replay(LOG1) == map["k" := "a"] == KvStore.Replay(LOG3)
  {
    AfterSet([NOOP1], 2, "a");
    AfterSet(LOG1, 3, "b");
    AfterSet(LOG2, 4, "a");
    assert [NOOP1][..0] == [];
    assert KvStore.ApplyCommand(map[], NOOP_COMMAND).0 == map[];
    assert KvStore.Replay([NOOP1]) == map[];
    hide KvStore.ApplyCommand, KvStore.Replay;
  }

  lemma Datas()
    ensures Lead(LOG1, 2, 2).data == map["k" := "a"] && Lead(LOG3, 4, 4).data == map["k" := "a"]
  {
    Replays();
    assert LOG1[..2] == LOG1 && LOG3[..4] == LOG3;
    hide KvStore.Replay;
  }

  lemma Peel(ops: seq<Operation>, order: seq<nat>, i: nat, store: Store)
    requires i < |order| && order[i] < |ops|
    ensures var op := ops[order[i]];
            StoreLegal(ops, order[i..], store) <==>
            && TryApply(op, Reg(store, op.key)).0
            && StoreLegal(ops, order[i + 1..], store[op.key := TryApply(op, Reg(store, op.key)).1])
  {
    assert order[i..][1..] == order[i + 1..];
  }

  lemma Where(order: seq<nat>, k: nat) returns (i: nat)
    requires k in order
    ensures i < |order| && order[i] == k
  {
    i :| i < |order| && order[i] == k;
  }

  lemma Precedes(order: seq<nat>, j: nat, k: nat)
    requires StoreLinearization(OPS, order) && j < 4 && k < 4 && OPS[j].complete < OPS[k].invoke
    ensures forall a, b | 0 <= a < |order| && 0 <= b < |order| && order[a] == j && order[b] == k :: a < b
  {
    hide StoreLegal;
    assert j in ConfirmedAt(OPS);
    assert Settled(OPS) == OPS;
  }

  lemma AllThere(order: seq<nat>)
    requires StoreLinearization(OPS, order)
    ensures NoRepeats(order) && (forall k <- order :: k < 4) && (forall k: nat | k < 4 :: k in order)
  {
    hide StoreLegal, RealTime;
    forall k: nat | k < 4 ensures k in order { assert k in ConfirmedAt(OPS); }
  }

  lemma StartsWithWrite(order: seq<nat>)
    requires StoreLinearization(OPS, order) && order != [] && order[0] < 4
    ensures OPS[order[0]].kind.Write?
  {
    assert Settled(OPS) == OPS && order[0..] == order;
    Peel(OPS, order, 0, map[]);
    hide StoreLinearization;
  }

  /** The write of "a", the first read, the write of "b" and the second read can only come in this order. */
  lemma OnlyOrder(order: seq<nat>)
    requires StoreLinearization(OPS, order)
    ensures |order| >= 4 && order[0] == 0 && order[1] == 1 && order[2] == 2 && order[3] == 3
  {
    Precedes(order, 1, 2);
    Precedes(order, 2, 3);
    AllThere(order);
    var r := Where(order, 1);
    var b := Where(order, 2);
    var s := Where(order, 3);
    StartsWithWrite(order);
    hide StoreLinearization;
    assert order[0] in order && order[1] in order && order[2] in order && order[3] in order;
  }

  lemma NotLegal(order: seq<nat>)
    requires |order| >= 4 && order[0] == 0 && order[1] == 1 && order[2] == 2 && order[3] == 3
    ensures !StoreLegal(OPS, order, map[])
  {
    hide StoreLegal;
    assert order[0..] == order;
    var a, b: Register := Some("a"), Some("b");
    assert "a"[0] != "b"[0];
    Peel(OPS, order, 0, map[]);
    Peel(OPS, order, 1, map[]["k" := a]);
    Peel(OPS, order, 2, map[]["k" := a]["k" := a]);
    Peel(OPS, order, 3, map[]["k" := a]["k" := a]["k" := b]);
  }

  /** A read of "a" before the write of "b" and one after it, with one write of "a": no register does that. */
  lemma NoOrder()
    ensures !StoreLinearizable(OPS)
  {
    assert Settled(OPS) == OPS;
    forall order ensures !StoreLinearization(OPS, order) {
      if StoreLinearization(OPS, order) {
        OnlyOrder(order);
        NotLegal(order);
      }
    }
  }

  // ----- what the clients recorded -----

  ghost predicate Ran(r: Record) {
    && Traced(r.run, r.steps) && |r.steps| == 21 && r.ops == OPS && r.calls == CALLS && Past(r.run)
    && NodeIs(r.run, 15, Lead(LOG2, 3, 3)) && NodeIs(r.run, 19, Lead(LOG3, 4, 4)) && NodeIs(r.run, 21, Lead(LOG3, 4, 4))
    && ReadConfirmed(r.run, 19, 21, 1, {1, 2})
    && SubmitsAre(r.steps, map[4 := SETA, 11 := SETB, 15 := SETA])
  }

  lemma Attempts(r: Record)
    requires Ran(r)
    ensures Tried(r, 0, 4) && Tried(r, 0, 15) && Tried(r, 2, 11)
    ensures EntryOf(r, 15) == Entry(1, 4, SETA) && EntryOf(r, 11) == Entry(1, 3, SETB)
    ensures TriedInTime(r, 0, 4) && TriedInTime(r, 0, 15) && TriedInTime(r, 2, 11)
  {
    assert r.steps[4] == Submit(1, SETA) && r.steps[11] == Submit(1, SETB) && r.steps[15] == Submit(1, SETA);
    hide ReadConfirmed, Traced;
  }

  lemma WritesAnswered(r: Record)
    requires Ran(r)
    ensures WriteRecorded(r, 0) && WriteRecorded(r, 2)
  {
    Attempts(r);
    hide ReadConfirmed, Traced, SubmitsAre, EntryOf, TriedInTime, KvStore.Replay;
    assert Answered(r, 15, 19) && Answered(r, 11, 15);
  }

  lemma ReadsAnswered(r: Record)
    requires Ran(r)
    ensures ReadRecorded(r, 1) && ReadRecorded(r, 3)
  {
    Datas();
    hide ReadConfirmed, Traced, SubmitsAre, KvStore.Replay;
    assert OnlyOwnBeyond(r.run[8].nodes[1]) && OnlyOwnBeyond(r.run[19].nodes[1]);
  }

  lemma NothingElse(r: Record)
    requires Ran(r)
    ensures Complete(r)
  {
    Attempts(r);
    hide ReadConfirmed, Traced, EntryOf, TriedInTime, Past, NodeIs;
    assert forall x | 0 <= x < |r.steps| && r.steps[x].Submit? :: x in {4, 11, 15};
    OneOwner(r);
    hide SubmitsAre, Tried;
  }

  lemma OneOwner(r: Record)
    requires r.calls == CALLS
    ensures forall j, k, x | Tried(r, j, x) && Tried(r, k, x) :: j == k
  {
    forall j, x | Tried(r, j, x) ensures j == if x == 11 then 2 else 0 { }
  }

  lemma AllRecorded(r: Record)
    requires Ran(r)
    ensures Recorded(r)
  {
    WritesAnswered(r);
    ReadsAnswered(r);
    NothingElse(r);
    hide WriteRecorded, ReadRecorded, Complete, Traced, Past, NodeIs, ReadConfirmed, SubmitsAre;
    FourAccounted(r);
  }

  lemma FourAccounted(r: Record)
    requires |r.ops| == |r.calls| == 4 && Traced(r.run, r.steps) && Complete(r)
    requires r.ops[0].kind.Write? && r.ops[1].kind.Read? && r.ops[2].kind.Write? && r.ops[3].kind.Read?
    requires WriteRecorded(r, 0) && ReadRecorded(r, 1) && WriteRecorded(r, 2) && ReadRecorded(r, 3)
    ensures Recorded(r)
  {
    hide WriteRecorded, ReadRecorded, Complete, Traced;
  }

  lemma TheRun() returns (r: Record)
    ensures Ran(r)
  {
    var run, steps := ReadTwice();
    r := Record(run, steps, OPS, CALLS);
    hide Traced, ReadConfirmed, Past, NodeIs, SubmitsAre;
  }

  /** The theorem of Clients is false without its condition on repeated writes: every write and read here is
      as it asks, and the history has no linearization. */
  lemma RetriedWriteBreaksHistory() returns (r: Record)
    ensures Recorded(r) && r.ops == OPS && r.calls == CALLS && !AppliedOnce(r) && !StoreLinearizable(r.ops)
  {
    r := TheRun();
    AllRecorded(r);
    NoOrder();
    hide Recorded, StoreLinearizable, AppliedOnce;
    if AppliedOnce(r) { ClientsSeeOneStore(r); }
  }
}
