/** The cluster with two more things the code has. Every node has a disk: a higher term found in the
    reply to a leadership probe, or to a snapshot, changes the memory only
    (src/core/raft_node.rs:299-303, 367-371), so the term and vote on disk may lag behind, and a node
    that dies starts again from its disk. And a submitted entry is sent in a second step that does not
    look at the role again (src/core/raft_node.rs:80-121), so a node may send it as a follower. The
    theorems of Safety and ReadIndex hold for the code in all runs in which no node restarts while its
    disk lags, no late replication leaves a node that was deposed, and no harmful probe is delivered. */
module Disks {
  import opened Types
  import opened CoreSteps
  import opened Cluster
  import opened AppendSteps
  import opened Applying
  import opened Safety
  import opened CommitBound
  import opened ReadIndex
  import KvStore

  /** `owed` has the entry a node appended for a client and has not sent yet. */
  datatype Full = Full(state: State, disks: map<nat, Stored>, owed: map<nat, nat>)

  // ----- steps -----

  /** What a node that has appended a client's entry may do before it sends it: the server runs one operation
      at a time (src/core/raft_server.rs:138-195), but answers the other nodes. */
  predicate WhileOwing(step: Step) {
    step.Replicate? || step.ReceiveVoteReq? || step.ReceiveAppendReq? || Dies(step)
  }

  /** A node that dies in a term update has written the new term and perhaps cleared the vote. */
  predicate CanTake(r: Full, step: Step) {
    && step.node in r.state.nodes && step.node in r.disks
    && (if step.Replicate? then step.node in r.owed && r.owed[step.node] == step.index else Enabled(r.state, step))
    && (step.node in r.owed ==> WhileOwing(step))
    && (step.CrashInTermUpdate? ==> step.vote == None || step.vote == r.disks[step.node].votedFor)
  }

  /** What all nodes do apart from the disks: a late replication goes out whatever the role. */
  function Act(rule: CommitRule, r: Full, step: Step): State
    requires CanTake(r, step)
  {
    var c := r.state.nodes[step.node];
    if step.Replicate? then Update(r.state, step.node, c, Replications(c, step.index)) else Perform(rule, r.state, step)
  }

  /** A handler writes a new term with its vote, and new entries at once. */
  function Written(d: Stored, c: Core, c': Core): Stored {
    if c'.term > c.term then d.(term := c'.term, votedFor := c'.votedFor, log := c'.log) else d.(log := c'.log)
  }

  function DiskAfter(rule: CommitRule, r: Full, step: Step): Stored
    requires CanTake(r, step)
  {
    var c, d := r.state.nodes[step.node], r.disks[step.node];
    match step
    case ReceiveVoteReq(_, m) => DiskAfterVote(d, c, m.vote)
    case SnapshotRefused(_, _) => d
    case Crash(_) => d
    case CrashInTermUpdate(_, term, vote) => d.(term := term, votedFor := vote)
    case CrashInAppend(_, m, stored, cut) =>
      var inAppend := DiskInAppend(c, m.append, stored, cut);
      if m.append.term > c.term then d.(term := inAppend.term, votedFor := inAppend.votedFor, log := inAppend.log)
      else d.(log := inAppend.log)
    case ReceiveAppendRep(_, m) =>
      if m.probe.Some? then d else Written(d, c, Act(rule, r, step).nodes[step.node])
    case _ => Written(d, c, Act(rule, r, step).nodes[step.node])
  }

  predicate Dies(step: Step) { step.Crash? || step.CrashInTermUpdate? || step.CrashInAppend? }

  function Take(rule: CommitRule, r: Full, step: Step): Full
    requires CanTake(r, step)
  {
    var i, d, s := step.node, DiskAfter(rule, r, step), Act(rule, r, step);
    Full(if Dies(step) then s.(nodes := s.nodes[i := Restart(r.state.nodes[i], d)]) else s,
         r.disks[i := d],
         if step.Submit? then r.owed[i := LastLogIndex(s.nodes[i])]
         else if step.Replicate? || Dies(step) then r.owed - {i}
         else r.owed)
  }

  // ----- how far a disk may lag -----

  /** The log is on disk; the term may lag, and if it does not the vote is there too. */
  predicate DiskOk(c: Core, d: Stored) {
    && d.log == c.log && d.snapshot == None && d.term <= c.term
    && (d.term == c.term ==> d.votedFor == c.votedFor)
  }

  ghost predicate DisksOk(r: Full) {
    r.disks.Keys == r.state.nodes.Keys && forall i <- r.disks :: DiskOk(r.state.nodes[i], r.disks[i])
  }

  /** No node restarts from a term below the one it had reached. */
  predicate Settled(r: Full, step: Step)
    requires CanTake(r, step)
  {
    var c, d := r.state.nodes[step.node], r.disks[step.node];
    match step
    case Crash(_) => d.term == c.term
    case CrashInAppend(_, m, _, _) => m.append.term > c.term || d.term == c.term
    case _ => true
  }

  lemma DiskAfterVoteOk(c: Core, d: Stored, req: VoteArgs)
    requires DiskOk(c, d)
    ensures DiskOk(HandleRequestVote(c, req).0, DiskAfterVote(d, c, req))
  {
  }

  predicate TermWithVote(c: Core, c': Core) { c'.term >= c.term && (c'.term == c.term ==> c'.votedFor == c.votedFor) }

  lemma AppendKeepsVote(rule: CommitRule, c: Core, req: AppendArgs)
    ensures TermWithVote(c, HandleAppendEntries(rule, c, req).0)
  {
    var c2 := StepDown(c, req.term).(role := Follower);
    AcceptTermRole(rule, c2, req);
    hide AcceptEntriesAt;
  }

  lemma ReplyKeepsVote(c: Core, peer: nat, index: nat, result: AppendResult)
    ensures TermWithVote(c, HandleAppendResult(c, peer, index, result))
  {
    var c2 := RecordReply(StepDown(c, result.term), peer, index, result);
    ApplyKeepsRest(c2.(commit := index));
    hide ApplyCommitted;
  }

  lemma StepKeepsVote(rule: CommitRule, r: Full, step: Step)
    requires CanTake(r, step) && !Dies(step) && !step.ReceiveVoteReq?
    ensures TermWithVote(r.state.nodes[step.node], Act(rule, r, step).nodes[step.node])
  {
    var c := r.state.nodes[step.node];
    hide HandleAppendEntries, HandleAppendResult;
    match step
    case ReceiveAppendReq(_, m) => AppendKeepsVote(rule, c, m.append);
    case ReceiveAppendRep(_, m) => ReplyKeepsVote(c, m.src, m.callIndex, m.appended);
    case _ =>
  }

  lemma MemoryOnlyKeepsLog(rule: CommitRule, r: Full, step: Step)
    requires CanTake(r, step) && (step.SnapshotRefused? || (step.ReceiveAppendRep? && step.msg.probe.Some?))
    ensures Act(rule, r, step).nodes[step.node].log == r.state.nodes[step.node].log
    ensures DiskAfter(rule, r, step) == r.disks[step.node]
  {
  }

  lemma LivingDiskOk(rule: CommitRule, r: Full, step: Step)
    requires CanTake(r, step) && !Dies(step) && !step.ReceiveVoteReq?
    requires DiskOk(r.state.nodes[step.node], r.disks[step.node])
    ensures DiskOk(Act(rule, r, step).nodes[step.node], DiskAfter(rule, r, step))
  {
    StepKeepsVote(rule, r, step);
    hide Act;
    if step.SnapshotRefused? || (step.ReceiveAppendRep? && step.msg.probe.Some?) {
      MemoryOnlyKeepsLog(rule, r, step);
    }
  }

  lemma VoterDiskOk(rule: CommitRule, r: Full, step: Step)
    requires CanTake(r, step) && step.ReceiveVoteReq?
    requires DiskOk(r.state.nodes[step.node], r.disks[step.node])
    ensures DiskOk(Act(rule, r, step).nodes[step.node], DiskAfter(rule, r, step))
  {
    DiskAfterVoteOk(r.state.nodes[step.node], r.disks[step.node], step.msg.vote);
    hide HandleRequestVote, DiskAfterVote;
  }

  lemma DyingDiskOk(rule: CommitRule, r: Full, step: Step)
    requires CanTake(r, step) && Dies(step)
    requires DiskOk(r.state.nodes[step.node], r.disks[step.node])
    ensures DiskOk(Restart(r.state.nodes[step.node], DiskAfter(rule, r, step)), DiskAfter(rule, r, step))
  {
    hide DiskInAppend;
  }

  lemma MoverDiskOk(rule: CommitRule, r: Full, step: Step)
    requires DisksOk(r) && CanTake(r, step)
    ensures DiskOk(Take(rule, r, step).state.nodes[step.node], DiskAfter(rule, r, step))
  {
    assert DiskOk(r.state.nodes[step.node], r.disks[step.node]);
    if Dies(step) {
      DyingDiskOk(rule, r, step);
    } else if step.ReceiveVoteReq? {
      VoterDiskOk(rule, r, step);
    } else {
      LivingDiskOk(rule, r, step);
    }
    hide Act, DiskAfter, DiskOk;
  }

  lemma OthersStay(rule: CommitRule, r: Full, step: Step)
    requires CanTake(r, step)
    ensures var r' := Take(rule, r, step);
            && r'.state.nodes.Keys == r.state.nodes.Keys
            && forall k <- r.state.nodes | k != step.node :: r'.state.nodes[k] == r.state.nodes[k]
  {
  }

  lemma OneDiskChanges(r: Full, r': Full, i: nat)
    requires DisksOk(r) && i in r.disks && i in r'.disks && i in r'.state.nodes
    requires r'.state.nodes.Keys == r.state.nodes.Keys && r'.disks == r.disks[i := r'.disks[i]]
    requires forall k <- r.state.nodes | k != i :: r'.state.nodes[k] == r.state.nodes[k]
    requires DiskOk(r'.state.nodes[i], r'.disks[i])
    ensures DisksOk(r')
  {
  }

  lemma TakeOk(rule: CommitRule, r: Full, step: Step)
    requires DisksOk(r) && CanTake(r, step)
    ensures DisksOk(Take(rule, r, step))
  {
    MoverDiskOk(rule, r, step);
    OthersStay(rule, r, step);
    hide Act, DiskAfter, DiskOk, DisksOk;
    OneDiskChanges(r, Take(rule, r, step), step.node);
  }

  /** A node still leads, and leads the same log, when it sends what it appended. */
  predicate Leading(r: Full, step: Step)
    requires CanTake(r, step)
  {
    var c := r.state.nodes[step.node];
    step.Replicate? ==> c.role == Leader && step.index == LastLogIndex(c)
  }

  /** A step of the code is the step of the model that saves every term exactly when it does not restart
      a node whose disk lags. */
  lemma TakeIsPerformIff(rule: CommitRule, r: Full, step: Step)
    requires DisksOk(r) && CanTake(r, step) && Leading(r, step)
    ensures Take(rule, r, step).state == Perform(rule, r.state, step) <==> Settled(r, step)
  {
    if Dies(step) {
      var i := step.node;
      var taken, saved := Take(rule, r, step).state, Perform(rule, r.state, step);
      assert taken == saved <==> taken.nodes[i] == saved.nodes[i];
      RestartSame(rule, r, step);
    }
  }

  lemma RestartSame(rule: CommitRule, r: Full, step: Step)
    requires DisksOk(r) && CanTake(r, step) && Dies(step)
    ensures Take(rule, r, step).state.nodes[step.node] == Perform(rule, r.state, step).nodes[step.node]
       <==> Settled(r, step)
  {
    assert DiskOk(r.state.nodes[step.node], r.disks[step.node]);
  }

  // ----- runs -----

  /** What is kept from a run: restarts from a disk that lags, replications of a deposed node,
      deliveries of harmful probes. */
  datatype Guards = Guards(settled: bool, leading: bool, careful: bool)

  predicate Guarded(g: Guards, r: Full, step: Step)
    requires CanTake(r, step)
  {
    && (g.settled ==> Settled(r, step))
    && (g.leading ==> Leading(r, step))
    && (g.careful && !step.Replicate? ==> Careful(r.state, step))
  }

  predicate FullInit(r: Full) {
    && Init(r.state) && r.disks.Keys == r.state.nodes.Keys && r.owed == map[]
    && forall i <- r.disks :: r.disks[i] == DiskOf(r.state.nodes[i])
  }

  ghost predicate FullNext(rule: CommitRule, g: Guards, r: Full, r': Full) {
    exists step :: CanTake(r, step) && Guarded(g, r, step) && r' == Take(rule, r, step)
  }

  ghost predicate FullAt(rule: CommitRule, g: Guards, run: seq<Full>, k: nat) {
    0 < k < |run| ==> FullNext(rule, g, run[k - 1], run[k])
  }

  ghost predicate FullRun(rule: CommitRule, g: Guards, run: seq<Full>) {
    && run != []
    && FullInit(run[0])
    && forall k: nat {:trigger FullAt(rule, g, run, k)} :: FullAt(rule, g, run, k)
  }

  /** The run without the disks. */
  function States(run: seq<Full>): (states: seq<State>)
    ensures |states| == |run| && forall k | 0 <= k < |run| :: states[k] == run[k].state
  {
    seq(|run|, k requires 0 <= k < |run| => run[k].state)
  }

  lemma {:induction false} RunDisksOk(rule: CommitRule, g: Guards, run: seq<Full>, k: nat)
    requires FullRun(rule, g, run) && k < |run|
    ensures DisksOk(run[k])
  {
    if k > 0 {
      RunDisksOk(rule, g, run, k - 1);
      assert FullAt(rule, g, run, k);
      var step :| CanTake(run[k - 1], step) && Guarded(g, run[k - 1], step) && run[k] == Take(rule, run[k - 1], step);
      TakeOk(rule, run[k - 1], step);
    }
  }

  lemma GuardedNext(rule: CommitRule, g: Guards, r: Full, r': Full) returns (step: Step)
    requires g.settled && g.leading && DisksOk(r) && FullNext(rule, g, r, r')
    ensures CanTake(r, step) && Guarded(g, r, step) && Enabled(r.state, step)
    ensures r'.state == Perform(rule, r.state, step)
  {
    step :| CanTake(r, step) && Guarded(g, r, step) && r' == Take(rule, r, step);
    TakeIsPerformIff(rule, r, step);
  }

  /** Every run of the code in which no node restarts while its disk lags and none sends after it was
      deposed is, without the disks, a run of the model that saves every term. */
  lemma GuardedRunsAreRuns(rule: CommitRule, g: Guards, run: seq<Full>)
    requires FullRun(rule, g, run) && g.settled && g.leading
    ensures Run(rule, States(run))
  {
    forall k: nat ensures StepAt(rule, States(run), k) {
      if 0 < k < |run| {
        RunDisksOk(rule, g, run, k - 1);
        assert FullAt(rule, g, run, k);
        var step := GuardedNext(rule, g, run[k - 1], run[k]);
      }
    }
  }

  const ALL := Guards(true, true, true)

  /** With all guards it is a run of the model with the intended commit bound. */
  lemma SourceRunsAreRuns(run: seq<Full>)
    requires FullRun(AsWritten, ALL, run)
    ensures Run(LastNewEntry, States(run))
  {
    forall k: nat ensures CarefulAt(States(run), k) {
      if 0 < k < |run| {
        RunDisksOk(AsWritten, ALL, run, k - 1);
        assert FullAt(AsWritten, ALL, run, k);
        var step := GuardedNext(AsWritten, ALL, run[k - 1], run[k]);
      }
    }
    CarefulRunsAreRuns(States(run));
  }

  // ----- the theorems, for the code as written -----

  ghost predicate SourceRun(run: seq<Full>) { FullRun(AsWritten, ALL, run) }

  ghost predicate Holds(run: seq<Full>, a: nat, i: nat) { a < |run| && i in run[a].state.nodes }

  function NodeAt(run: seq<Full>, a: nat, i: nat): Core
    requires Holds(run, a, i)
  {
    run[a].state.nodes[i]
  }

  /** State machine safety. */
  lemma SafeAsWritten(run: seq<Full>, a: nat, i: nat, b: nat, j: nat)
    requires SourceRun(run) && Holds(run, a, i) && Holds(run, b, j)
    ensures var c, d := NodeAt(run, a, i), NodeAt(run, b, j);
            && c.applied <= |c.log| && d.applied <= |d.log|
            && (c.log[..c.applied] <= d.log[..d.applied] || d.log[..d.applied] <= c.log[..c.applied])
  {
    SourceRunsAreRuns(run);
    StateMachineSafety(States(run), a, i, b, j);
  }

  /** Equal replicas. */
  lemma ReplicasAgreeAsWritten(run: seq<Full>, a: nat, i: nat, b: nat, j: nat)
    requires SourceRun(run) && Holds(run, a, i) && Holds(run, b, j)
    ensures var c, d := NodeAt(run, a, i), NodeAt(run, b, j);
            && c.applied == c.commit <= |c.log| && c.data == KvStore.Replay(c.log[..c.applied])
            && (c.applied == d.applied ==> c.data == d.data)
  {
    SourceRunsAreRuns(run);
    ReplicasAgree(States(run), a, i, b, j);
  }

  /** Election safety. */
  lemma OneLeaderAsWritten(run: seq<Full>, a: nat, i: nat, b: nat, j: nat)
    requires SourceRun(run) && Holds(run, a, i) && Holds(run, b, j)
    requires NodeAt(run, a, i).role == NodeAt(run, b, j).role == Leader
    requires NodeAt(run, a, i).term == NodeAt(run, b, j).term
    ensures i == j
  {
    SourceRunsAreRuns(run);
    ElectionSafety(States(run), a, i, b, j);
  }

  /** Log Matching. */
  lemma LogsMatchAsWritten(run: seq<Full>, a: nat, i: nat, b: nat, j: nat, k: nat)
    requires SourceRun(run) && Holds(run, a, i) && Holds(run, b, j)
    requires k < |NodeAt(run, a, i).log| && k < |NodeAt(run, b, j).log|
    requires NodeAt(run, a, i).log[k].term == NodeAt(run, b, j).log[k].term
    ensures NodeAt(run, a, i).log[..k + 1] == NodeAt(run, b, j).log[..k + 1]
  {
    SourceRunsAreRuns(run);
    LogsMatch(States(run), a, i, b, j, k);
  }

  /** Leader completeness. */
  lemma LeadersHoldCommittedAsWritten(run: seq<Full>, a: nat, i: nat, b: nat, j: nat)
    requires SourceRun(run) && Holds(run, a, i) && Holds(run, b, j)
    requires NodeAt(run, b, j).role == Leader
    requires NodeAt(run, a, i).term < NodeAt(run, b, j).term
             || (NodeAt(run, a, i).term == NodeAt(run, b, j).term && a <= b)
    ensures var c, d := NodeAt(run, a, i), NodeAt(run, b, j);
            c.commit <= |c.log| && c.log[..c.commit] <= d.log
  {
    SourceRunsAreRuns(run);
    LeadersHoldCommitted(States(run), a, i, b, j);
  }

  /** The leader's belief about a peer. */
  lemma MatchIndexIsTrueAsWritten(run: seq<Full>, i: nat, p: nat)
    requires SourceRun(run) && Holds(run, |run| - 1, i) && Holds(run, |run| - 1, p)
    requires NodeAt(run, |run| - 1, i).role == Leader
    requires NodeAt(run, |run| - 1, p).term == NodeAt(run, |run| - 1, i).term
    ensures var c, d := NodeAt(run, |run| - 1, i), NodeAt(run, |run| - 1, p);
            var k := Lookup(c.acked, p, 0);
            k <= |c.log| && k <= |d.log| && c.log[..k] == d.log[..k]
  {
    SourceRunsAreRuns(run);
    MatchIndexIsTrue(States(run), i, p);
  }

  /** Confirmed reads see acknowledged writes. */
  lemma ReadsSeeWritesAsWritten(run: seq<Full>, a: nat, z: nat, i: nat, confirmed: set<nat>, b: nat, p: nat)
    requires SourceRun(run) && ReadConfirmed(States(run), a, z, i, confirmed)
    requires Holds(run, a, i) && Holds(run, z, i) && Holds(run, b, p) && b <= a
    requires OnlyOwnBeyond(NodeAt(run, a, i)) && NodeAt(run, z, i).applied >= NodeAt(run, a, i).commit
    requires NodeAt(run, b, p).role == Leader
    ensures var w, r := NodeAt(run, b, p), NodeAt(run, z, i);
            && w.applied <= NodeAt(run, a, i).commit <= r.applied
            && w.applied <= |w.log| && r.applied <= |r.log|
            && w.log[..w.applied] <= r.log[..r.applied]
  {
    SourceRunsAreRuns(run);
    ReadsSeeAcknowledgedWrites(States(run), a, z, i, confirmed, b, p);
  }
}
