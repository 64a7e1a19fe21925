/** How far a follower moves its commit index. The source bounds it by the follower's own last
    index although its comment asks for the index of the last new entry
    (src/core/raft_core.rs:449-457, 475-483, 501-509). The two agree for whole-suffix batches; for
    the empty probes of src/core/raft_node.rs:339-346 they need not, and then safety is lost. */
module CommitBound {
  import opened Types
  import opened CoreSteps
  import opened History
  import opened Cluster
  import opened Invariant
  import opened VoteSteps
  import opened AppendSteps
  import opened Applying
  import opened Safety

  function LastAfter(c: Core, req: AppendArgs): nat {
    LastLogIndex(c.(log := StoreEntries(c.snapIndex, 0, c.log, req.entries)))
  }

  /** The leader's commit index does not pass what the batch vouches for, or the follower holds
      nothing beyond that. */
  predicate BoundHarmless(c: Core, req: AppendArgs) {
    var reach := Max(c.commit, req.prevLogIndex + |req.entries|);
    req.leaderCommit <= reach || LastAfter(c, req) <= reach
  }

  lemma ApplyKeepsCommit(c: Core)
    ensures ApplyCommitted(c).commit == c.commit
  {
    ApplyUpToKeepsRest(c);
  }

  /** The source's bound and the intended one give the same node exactly when the bound is harmless. */
  lemma BoundsAgreeIff(c: Core, req: AppendArgs)
    requires c.commit <= LastAfter(c, req) && req.prevLogIndex + |req.entries| <= LastAfter(c, req)
    ensures AcceptEntries(AsWritten, c, req) == AcceptEntries(LastNewEntry, c, req) <==> BoundHarmless(c, req)
  {
    var c1 := c.(log := StoreEntries(c.snapIndex, 0, c.log, req.entries));
    ApplyKeepsCommit(c1.(commit := NewCommit(AsWritten, c1, req)));
    ApplyKeepsCommit(c1.(commit := NewCommit(LastNewEntry, c1, req)));
  }

  // ----- runs of the source's own rule -----

  function Listening(c: Core, req: AppendArgs): Core { StepDown(c, req.term).(role := Follower) }

  /** The only deliveries a careful network withholds: probes whose bound is not harmless. */
  predicate Careful(s: State, step: Step)
    requires Enabled(s, step)
  {
    step.ReceiveAppendReq? && step.msg.probe.Some? ==>
      BoundHarmless(Listening(s.nodes[step.node], step.msg.append), step.msg.append)
  }

  ghost predicate CarefulNext(s: State, s': State) {
    exists step :: Enabled(s, step) && Careful(s, step) && s' == Perform(AsWritten, s, step)
  }

  ghost predicate CarefulRun(run: seq<State>) {
    && run != []
    && Init(run[0])
    && forall k: nat {:trigger CarefulAt(run, k)} :: CarefulAt(run, k)
  }

  ghost predicate CarefulAt(run: seq<State>, k: nat) {
    0 < k < |run| ==> CarefulNext(run[k - 1], run[k])
  }

  lemma AcceptedReach(h: Hist, i: nat, c: Core, m: Message)
    requires HistOk(h) && NodeOk(h, i, c) && c.role == Follower
    requires m.AppendReq? && AppendReqOk(h, m) && m.append.term == c.term
    requires CheckPrev(c, m.append.prevLogIndex, m.append.prevLogTerm) == Agrees
    ensures c.commit <= LastAfter(c, m.append)
    ensures m.append.prevLogIndex + |m.append.entries| <= LastAfter(c, m.append)
  {
    assert m.append.entries[..|m.append.entries|] == m.append.entries;
    StoreLeaderBatch(h, c, m, |m.append.entries|);
    var c1 := c.(log := StoreEntries(0, 0, c.log, m.append.entries));
    StoreNodeOk(h, i, c, c1.log);
    PlainLog(h, c1);
  }

  lemma CarefulStepAgrees(h: Hist, s: State, step: Step)
    requires StateOk(h, s) && Enabled(s, step) && Careful(s, step)
    ensures Perform(AsWritten, s, step) == Perform(LastNewEntry, s, step)
  {
    if step.ReceiveAppendReq? {
      var i, m := step.node, step.msg;
      var c, r := s.nodes[i], m.append;
      assert NodeOk(h, i, c) && MessageOk(h, s.nodes, m);
      StepDownOk(h, i, c, r.term);
      var c1 := StepDown(c, r.term);
      FollowOk(h, i, c1);
      if r.term >= c1.term && CheckPrev(Listening(c, r), r.prevLogIndex, r.prevLogTerm) == Agrees {
        AcceptedReach(h, i, Listening(c, r), m);
        BoundsAgreeIff(Listening(c, r), r);
      }
    }
  }

  lemma CarefulNextAgrees(before: seq<State>, s': State)
    requires Run(LastNewEntry, before) && CarefulNext(before[|before| - 1], s')
    ensures Next(LastNewEntry, before[|before| - 1], s')
  {
    var s := before[|before| - 1];
    var h := RunHistory(before);
    var step :| Enabled(s, step) && Careful(s, step) && s' == Perform(AsWritten, s, step);
    CarefulStepAgrees(h, s, step);
  }

  /** Every run of the source's own rule in which no harmful probe is delivered is a run of the
      intended rule. Heartbeats and replication, which carry the leader's whole suffix, need no such
      care. Disks lifts this to the cluster whose disks may lag behind. */
  lemma {:induction false} CarefulRunsAreRuns(run: seq<State>)
    requires CarefulRun(run)
    ensures Run(LastNewEntry, run)
    decreases |run|
  {
    var n := |run| - 1;
    if n > 0 {
      forall k: nat ensures CarefulAt(run[..n], k) { assert CarefulAt(run, k); }
      CarefulRunsAreRuns(run[..n]);
      assert CarefulAt(run, n);
      CarefulNextAgrees(run[..n], run[n]);
      RunSnoc(LastNewEntry, run[..n], run[n]);
      assert run == run[..n] + [run[n]];
    }
  }
}
