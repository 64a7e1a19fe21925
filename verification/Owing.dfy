/** When a replication that leaves late (src/core/raft_server.rs:214-234, src/core/raft_node.rs:80-121) tells
    the truth: exactly when the node that appended the entry still leads. */
module Owing {
  import opened Types
  import opened CoreSteps
  import opened History
  import opened Cluster
  import opened Invariant
  import opened VoteSteps
  import opened AppendSteps
  import opened Safety
  import opened Disks

  /** A node that owes an entry still leads and has appended nothing since, or follows and has not voted
      for itself in its term. */
  predicate OwesFit(i: nat, c: Core, index: nat) {
    if c.role == Leader then index == LastLogIndex(c) else c.role == Follower && c.votedFor != Some(i)
  }

  ghost predicate OwesOk(r: Full) {
    forall i <- r.owed :: i in r.state.nodes && OwesFit(i, r.state.nodes[i], r.owed[i])
  }

  lemma AskedOwesFit(h: Hist, s: State, i: nat, m: Message, index: nat)
    requires StateOk(h, s) && i in s.nodes && m in s.net && m.VoteReq? && m.dst == i
    requires OwesFit(i, s.nodes[i], index)
    ensures OwesFit(i, HandleRequestVote(s.nodes[i], m.vote).0, index)
  {
    assert MessageOk(h, s.nodes, m) && m.vote.candidateId != i;
    hide StateOk, MessageOk;
  }

  /** Only a leader's own term could end its leadership without a higher one, and the term has no other. */
  lemma ToldOwesFit(rule: CommitRule, h: Hist, s: State, i: nat, m: Message, index: nat)
    requires StateOk(h, s) && i in s.nodes && m in s.net && m.AppendReq? && m.dst == i
    requires OwesFit(i, s.nodes[i], index)
    ensures OwesFit(i, HandleAppendEntries(rule, s.nodes[i], m.append).0, index)
  {
    var c := s.nodes[i];
    assert MessageOk(h, s.nodes, m);
    assert NodeOk(h, i, c);
    assert c.role == Leader ==> m.append.term != c.term;
    AcceptTermRole(rule, StepDown(c, m.append.term).(role := Follower), m.append);
    hide AcceptEntriesAt, CheckPrev;
  }

  lemma MoverOwesFit(rule: CommitRule, h: Hist, r: Full, step: Step)
    requires StateOk(h, r.state) && OwesOk(r) && CanTake(r, step)
    ensures var i, r' := step.node, Take(rule, r, step);
            i in r'.owed ==> i in r'.state.nodes && OwesFit(i, r'.state.nodes[i], r'.owed[i])
  {
    hide HandleAppendEntriesAt, HandleRequestVote, DiskAfter;
    match step
    case ReceiveVoteReq(i, m) => if i in r.owed { AskedOwesFit(h, r.state, i, m, r.owed[i]); }
    case ReceiveAppendReq(i, m) => if i in r.owed { ToldOwesFit(rule, h, r.state, i, m, r.owed[i]); }
    case _ =>
  }

  lemma TakeOwesOk(rule: CommitRule, h: Hist, r: Full, step: Step)
    requires StateOk(h, r.state) && OwesOk(r) && CanTake(r, step)
    ensures OwesOk(Take(rule, r, step))
  {
    MoverOwesFit(rule, h, r, step);
    OthersStay(rule, r, step);
    hide OwesFit, Act, DiskAfter, CanTake, StateOk;
  }

  lemma {:induction false} RunOwesOk(run: seq<Full>, k: nat)
    requires SourceRun(run) && k < |run|
    ensures OwesOk(run[k])
  {
    if k > 0 {
      RunOwesOk(run, k - 1);
      var h := HistoryAt(run, k - 1);
      assert FullAt(AsWritten, ALL, run, k);
      var step :| CanTake(run[k - 1], step) && Guarded(ALL, run[k - 1], step)
                  && run[k] == Take(AsWritten, run[k - 1], step);
      TakeOwesOk(AsWritten, h, run[k - 1], step);
    }
  }

  lemma HistoryAt(run: seq<Full>, k: nat) returns (h: Hist)
    requires SourceRun(run) && k < |run|
    ensures StateOk(h, run[k].state)
  {
    SourceRunsAreRuns(run);
    RunPrefix(LastNewEntry, States(run), k + 1);
    h := RunHistory(States(run)[..k + 1]);
  }

  lemma LeaderVotedForItself(h: Hist, t: nat)
    requires HistOk(h) && t in h.elections
    ensures var i := h.elections[t].leader; (i, t) in h.ballots && h.ballots[(i, t)].cand == i
  {
    assert ElectionOk(h, t);
    assert VoteOk(h, t, h.elections[t].leader);
  }

  /** What a follower that owes sends names a leader that its term never had. */
  lemma FollowerLies(h: Hist, i: nat, c: Core, m: Message)
    requires HistOk(h) && NodeOk(h, i, c) && c.role == Follower && c.votedFor != Some(i)
    requires m.AppendReq? && m.src == i && m.append.term == c.term
    ensures !AppendReqOk(h, m)
  {
    assert BallotFits(h, i, c, c.term);
    if c.term in h.elections { LeaderVotedForItself(h, c.term); }
  }

  /** After any run within the guards, a node that owes an entry may send it. Whatever history explains the
      state (HistoryAt gives one), every message is true of it exactly if the node still leads, and
      this is the guard `Leading`. */
  lemma LateReplicationIff(h: Hist, run: seq<Full>, step: Step)
    requires SourceRun(run) && StateOk(h, run[|run| - 1].state)
    requires CanTake(run[|run| - 1], step) && step.Replicate?
    ensures var c := run[|run| - 1].state.nodes[step.node];
            && (Leading(run[|run| - 1], step) <==> c.role == Leader)
            && forall m <- Replications(c, step.index) :: AppendReqOk(h, m) <==> c.role == Leader
  {
    var r := run[|run| - 1];
    RunOwesOk(run, |run| - 1);
    var c := r.state.nodes[step.node];
    assert NodeOk(h, step.node, c);
    assert OwesFit(step.node, c, r.owed[step.node]);
    forall m <- Replications(c, step.index) ensures AppendReqOk(h, m) <==> c.role == Leader {
      if c.role == Leader {
        PlainLog(h, c);
        ReplicationOk(h, step.node, c, m.dst);
      } else {
        FollowerLies(h, step.node, c, m);
      }
    }
  }
}
