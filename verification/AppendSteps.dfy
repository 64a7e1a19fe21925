/** Log replication and crashes keep the cluster invariant
    (src/core/raft_core.rs:405-554, 687-709, 877-957; src/core/raft_node.rs:80-121, 177-236, 318-384). */
module AppendSteps {
  import opened Types
  import opened CoreSteps
  import opened History
  import opened HistorySteps
  import opened Cluster
  import opened Invariant
  import opened VoteSteps
  import opened Batch
  import opened Applying
  import KvStore

  // ----- committed prefixes -----

  lemma CommittedPrefix(h: Hist, t: nat, p: Log, q: Log)
    requires Committed(h, t, p) && q <= p
    ensures Committed(h, t, q)
  {
    if q != [] {
      var s: nat, j: nat :| s <= t && Chosen(h, s, j) && p <= h.logs[s][..j];
      assert q <= h.logs[s][..j];
    }
  }

  /** Moving the commit index over chosen entries and applying them. */
  lemma CommitNodeOk(h: Hist, i: nat, c: Core, k: nat)
    requires NodeOk(h, i, c) && c.commit <= k <= |c.log| && Committed(h, c.term, c.log[..k])
    ensures NodeOk(h, i, ApplyCommitted(c.(commit := k)))
    ensures ApplyCommitted(c.(commit := k)) == c.(commit := k, applied := k, data := KvStore.Replay(c.log[..k]))
  {
    ApplyUpToReplays(c.(commit := k));
    var c' := c.(commit := k, applied := k, data := KvStore.Replay(c.log[..k]));
    assert AcksKept(h, i, c'.log, c'.term, c'.term + 1);
    forall u: nat ensures BallotFits(h, i, c', u) { assert BallotFits(h, i, c, u); }
    forall v, u ensures VoteFits(h, i, c', v, u) { assert VoteFits(h, i, c, v, u); }
    if c.role == Leader { forall p ensures MatchFits(h, c', p) { assert MatchFits(h, c, p); } }
  }

  // ----- a follower's log after a batch -----

  ghost predicate Common(log: Log, leader: Log, n: nat) {
    n <= |log| && n <= |leader| && log[..n] == leader[..n]
  }

  lemma CommonPointwise(log: Log, leader: Log, n: nat)
    requires Common(log, leader, n)
    ensures forall k | 0 <= k < n :: log[k] == leader[k]
  {
    assert forall k | 0 <= k < n :: log[k] == log[..n][k] == leader[..n][k];
  }

  /** The new log keeps whatever the old one had in common with the leader's. */
  ghost predicate KeepsCommon(log: Log, log': Log, leader: Log) {
    forall n: nat {:trigger Common(log, leader, n)} | Common(log, leader, n) :: Common(log', leader, n)
  }

  lemma KeepsAcks(h: Hist, i: nat, log: Log, log': Log, t: nat)
    requires AcksKept(h, i, log, t, t + 1) && t in h.logs && KeepsCommon(log, log', h.logs[t])
    ensures AcksKept(h, i, log', t, t + 1)
  {
    forall s: nat, j: nat | (i, s) in h.acks && s < t + 1 && s in h.logs && j <= h.acks[(i, s)] && j <= |h.logs[s]|
      ensures Kept(h, log', t, s, j)
    {
      var p := h.logs[s][..j];
      assert Kept(h, log, t, s, j);
      if p <= log && p <= h.logs[t] {
        assert Common(log, h.logs[t], j);
        assert Common(log', h.logs[t], j);
      }
    }
  }

  /** A follower that hears from the leader of its term may replace its log by part of the leader's. */
  lemma StoreNodeOk(h: Hist, i: nat, c: Core, log': Log)
    requires HistOk(h) && NodeOk(h, i, c) && c.role == Follower && c.term in h.logs
    requires KeepsCommon(c.log, log', h.logs[c.term])
    requires log' == c.log || log' <= h.logs[c.term]
    ensures NodeOk(h, i, c.(log := log'))
  {
    var c', leader := c.(log := log'), h.logs[c.term];
    assert LogOk(h, c.term);
    if log' != c.log {
      FollowsPrefix(h.logs, leader, |log'|);
      assert log' == leader[..|log'|];
    }
    KeepsAcks(h, i, c.log, log', c.term);
    var k := c.commit;
    CommittedInLeader(h, c.term, c.log[..k], c.term);
    assert Common(c.log, leader, k);
    assert Common(log', leader, k);
    assert log'[..k] == c.log[..k];
    forall u: nat ensures BallotFits(h, i, c', u) { assert BallotFits(h, i, c, u); }
    forall v, u ensures VoteFits(h, i, c', v, u) { assert VoteFits(h, i, c, v, u); }
  }

  /** Up to the first clash with a slice of the leader's log, the log is the leader's. */
  lemma AgreesUpToClash(h: Hist, log: Log, t: nat, prev: nat, entries: Log)
    requires HistOk(h) && Follows(h.logs, log) && t in h.logs
    requires prev <= |log| && prev + |entries| <= |h.logs[t]|
    requires entries == h.logs[t][prev..prev + |entries|]
    requires prev > 0 ==> log[prev - 1].term == h.logs[t][prev - 1].term
    ensures Common(log, h.logs[t], prev) && Common(log, h.logs[t], prev + FirstClash(log, prev, entries))
  {
    var leader, r := h.logs[t], FirstClash(log, prev, entries);
    assert LogOk(h, t);
    if prev > 0 { LogMatching(h.logs, log, leader, prev - 1); }
    if r > 0 {
      assert log[prev + (r - 1)].term == entries[r - 1].term == leader[prev + (r - 1)].term;
      LogMatching(h.logs, log, leader, prev + (r - 1));
    }
  }

  /** Merging a slice of the leader's log: nothing changes if it is already there, else the log
      becomes the leader's up to the end of the slice. */
  lemma MergeLeaderSlice(h: Hist, log: Log, t: nat, prev: nat, entries: Log)
    requires HistOk(h) && Follows(h.logs, log) && t in h.logs
    requires prev <= |log| && prev + |entries| <= |h.logs[t]|
    requires entries == h.logs[t][prev..prev + |entries|]
    requires prev > 0 ==> log[prev - 1].term == h.logs[t][prev - 1].term
    ensures Replaces(log, Merge(log, prev, entries), h.logs[t], prev + |entries|)
    ensures Common(log, h.logs[t], prev)
  {
    AgreesUpToClash(h, log, t, prev, entries);
    MergeAfterClash(log, h.logs[t], prev, entries);
  }

  /** What storing a batch that ends at `end` does to a log, in terms of the leader's log. */
  ghost predicate Replaces(log: Log, log': Log, leader: Log, end: nat) {
    && (log' == log || log' <= leader)
    && Common(log', leader, end)
    && KeepsCommon(log, log', leader)
  }

  lemma MergeAfterClash(log: Log, leader: Log, prev: nat, entries: Log)
    requires prev <= |log| && prev + |entries| <= |leader|
    requires entries == leader[prev..prev + |entries|]
    requires Common(log, leader, prev + FirstClash(log, prev, entries))
    ensures Replaces(log, Merge(log, prev, entries), leader, prev + |entries|)
  {
    var n, r := |entries|, FirstClash(log, prev, entries);
    var at := prev + r;
    if r < n {
      assert Merge(log, prev, entries) == leader[..prev + n];
      forall x: nat | Common(log, leader, x) ensures Common(leader[..prev + n], leader, x) {
        assert entries[r] == leader[at];
        CommonPointwise(log, leader, x);
        assert leader[..prev + n][..x] == leader[..x];
      }
    }
  }

  lemma AcknowledgeKept(h: Hist, i: nat, log: Log, t: nat, j: nat)
    requires HistOk(h) && t in h.logs && Common(log, h.logs[t], j) && AcksKept(h, i, log, t, t + 1)
    requires Extends(h, Acknowledge(h, i, t, j))
    ensures AcksKept(Acknowledge(h, i, t, j), i, log, t, t + 1)
  {
    var h' := Acknowledge(h, i, t, j);
    forall s: nat, k: nat | (i, s) in h'.acks && s < t + 1 && s in h'.logs && k <= h'.acks[(i, s)] && k <= |h'.logs[s]|
      ensures Kept(h', log, t, s, k)
    {
      if (i, s) in h.acks && k <= h.acks[(i, s)] {
        assert Kept(h, log, t, s, k);
        KeptStays(h, h', log, t, s, k);
      } else {
        assert h.logs[s][..k] == h.logs[s][..j][..k] == log[..j][..k] == log[..k];
      }
    }
  }

  /** Acknowledging what the log holds of the present leader's log. */
  lemma AcknowledgeNodeOk(h: Hist, h': Hist, i: nat, c: Core, j: nat)
    requires HistOk(h) && NodeOk(h, i, c) && c.role == Follower && c.term in h.logs
    requires Common(c.log, h.logs[c.term], j)
    requires h' == Acknowledge(h, i, c.term, j) && Extends(h, h')
    ensures NodeOk(h', i, c)
  {
    FollowsStays(h, h', c.log);
    CommittedStays(h, h', c.term, c.log[..c.commit]);
    AcknowledgeKept(h, i, c.log, c.term, j);
    hide HistOk, AcksKept, Committed, Follows, Common, Extends;
    forall u: nat ensures BallotFits(h', i, c, u) { assert BallotFits(h, i, c, u); }
    forall v, u ensures VoteFits(h', i, c, v, u) { assert VoteFits(h, i, c, v, u); }
  }

  // ----- an AppendEntries request arrives -----

  /** The entry check before a batch (no snapshot). */
  lemma CheckPrevAgrees(h: Hist, c: Core, prev: nat, term: nat)
    requires Follows(h.logs, c.log) && Plain(c) && CheckPrev(c, prev, term) == Agrees
    ensures prev <= |c.log| && (prev > 0 ==> c.log[prev - 1].term == term)
  {
    PlainLog(h, c);
  }

  lemma SliceContiguous(h: Hist, t: nat, prev: nat, entries: Log)
    requires HistOk(h) && t in h.logs && prev + |entries| <= |h.logs[t]|
    requires entries == h.logs[t][prev..prev + |entries|]
    ensures Contiguous(prev, entries)
  {
    assert LogOk(h, t);
    forall k | 0 <= k < |entries| ensures entries[k].index == prev + 1 + k {
      assert Rooted(h.logs, h.logs[t], prev + k);
    }
  }

  /** Storing a batch the leader sent, whole or only its first part. */
  lemma PartOfLeaderLog(h: Hist, m: Message, stored: nat)
    requires m.AppendReq? && AppendReqOk(h, m) && stored <= |m.append.entries|
    ensures var t, prev := m.append.term, m.append.prevLogIndex;
            && t in h.logs && prev + stored <= |h.logs[t]|
            && m.append.entries[..stored] == h.logs[t][prev..prev + stored]
  {
  }

  lemma StoreLeaderBatch(h: Hist, c: Core, m: Message, stored: nat)
    requires HistOk(h) && Follows(h.logs, c.log) && Plain(c)
    requires m.AppendReq? && AppendReqOk(h, m) && stored <= |m.append.entries|
    requires CheckPrev(c, m.append.prevLogIndex, m.append.prevLogTerm) == Agrees
    ensures Replaces(c.log, StoreEntries(0, 0, c.log, m.append.entries[..stored]), h.logs[m.append.term],
                     m.append.prevLogIndex + stored)
    ensures Common(c.log, h.logs[m.append.term], m.append.prevLogIndex)
  {
    var prev, part := m.append.prevLogIndex, m.append.entries[..stored];
    CheckPrevAgrees(h, c, prev, m.append.prevLogTerm);
    SliceContiguous(h, m.append.term, prev, m.append.entries);
    PartOfLeaderLog(h, m, stored);
    hide AppendReqOk, Contiguous, StoreEntries, CheckPrev, HistOk, Follows, Plain;
    StoreEntriesIsMerge(0, c.log, prev, part);
    MergeLeaderSlice(h, c.log, m.append.term, prev, part);
  }

  /** The new commit index points into a committed prefix of the log. */
  lemma NewCommitOk(h: Hist, i: nat, c: Core, m: Message)
    requires HistOk(h) && NodeOk(h, i, c)
    requires m.AppendReq? && AppendReqOk(h, m) && m.append.term == c.term
    requires Common(c.log, h.logs[c.term], m.append.prevLogIndex + |m.append.entries|)
    ensures var k := NewCommit(LastNewEntry, c, m.append);
            c.commit <= k <= |c.log| && Committed(h, c.term, c.log[..k])
  {
    var leader, k := h.logs[c.term], NewCommit(LastNewEntry, c, m.append);
    var end := m.append.prevLogIndex + |m.append.entries|;
    if k > c.commit {
      assert c.log[..k] == c.log[..end][..k] == leader[..end][..k] == leader[..k];
      assert leader[..k] <= leader[..m.append.leaderCommit];
      CommittedPrefix(h, c.term, leader[..m.append.leaderCommit], leader[..k]);
    }
  }

  /** An accepted batch: the node stays sound, and its log agrees with the leader's so far. */
  lemma AcceptOk(h: Hist, i: nat, c: Core, m: Message)
    requires HistOk(h) && NodeOk(h, i, c) && c.role == Follower
    requires m.AppendReq? && AppendReqOk(h, m) && m.append.term == c.term
    requires CheckPrev(c, m.append.prevLogIndex, m.append.prevLogTerm) == Agrees
    ensures var c', r := AcceptEntries(LastNewEntry, c, m.append), m.append;
            && NodeOk(h, i, c') && c'.role == Follower && c'.term == c.term
            && Common(c'.log, h.logs[c.term], r.prevLogIndex + |r.entries|)
  {
    assert m.append.entries[..|m.append.entries|] == m.append.entries;
    StoreLeaderBatch(h, c, m, |m.append.entries|);
    var c1 := c.(log := StoreEntries(0, 0, c.log, m.append.entries));
    StoreNodeOk(h, i, c, c1.log);
    NewCommitOk(h, i, c1, m);
    CommitNodeOk(h, i, c1, NewCommit(LastNewEntry, c1, m.append));
  }

  lemma AcknowledgeStored(h: Hist, i: nat, c: Core, end: nat) returns (h': Hist)
    requires HistOk(h) && NodeOk(h, i, c) && c.role == Follower && c.term in h.logs
    requires Common(c.log, h.logs[c.term], end)
    ensures HistOk(h') && Extends(h, h') && OnlyBy(h, h', i) && h'.ballots == h.ballots && NodeOk(h', i, c)
    ensures (i, c.term) in h'.acks && h'.acks[(i, c.term)] >= end
  {
    h' := Acknowledge(h, i, c.term, end);
    NoLaterBallots(h, i, c);
    AcknowledgeOk(h, i, c.term, end);
    AcknowledgeNodeOk(h, h', i, c, end);
  }

  lemma AcceptAndAcknowledge(h: Hist, i: nat, c: Core, m: Message) returns (h': Hist)
    requires HistOk(h) && NodeOk(h, i, c) && c.role == Follower
    requires m.AppendReq? && AppendReqOk(h, m) && m.append.term == c.term
    requires CheckPrev(c, m.append.prevLogIndex, m.append.prevLogTerm) == Agrees
    ensures HistOk(h') && Extends(h, h') && OnlyBy(h, h', i) && h'.ballots == h.ballots
    ensures NodeOk(h', i, AcceptEntries(LastNewEntry, c, m.append))
    ensures var end := m.append.prevLogIndex + |m.append.entries|;
            (i, c.term) in h'.acks && h'.acks[(i, c.term)] >= end
  {
    AcceptOk(h, i, c, m);
    h' := AcknowledgeStored(h, i, AcceptEntries(LastNewEntry, c, m.append),
                            m.append.prevLogIndex + |m.append.entries|);
  }

  lemma HandleAppendEntriesOk(h: Hist, i: nat, c: Core, m: Message) returns (h': Hist)
    requires HistOk(h) && NodeOk(h, i, c) && m.AppendReq? && AppendReqOk(h, m)
    ensures HistOk(h') && Extends(h, h') && OnlyBy(h, h', i) && h'.ballots == h.ballots
    ensures var (c', result) := HandleAppendEntries(LastNewEntry, c, m.append);
            && NodeOk(h', i, c') && Moves(c, c')
            && AppendRepOk(h', AppendRep(i, m.src, m.append.term, m.callIndex, m.probe, result))
  {
    hide NodeOk, HistOk, CheckPrev, AcceptEntriesAt, Follows;
    h' := h;
    StepDownOk(h, i, c, m.append.term);
    var c1 := StepDown(c, m.append.term);
    if m.append.term >= c1.term {
      FollowOk(h, i, c1);
      var c2 := c1.(role := Follower);
      if CheckPrev(c2, m.append.prevLogIndex, m.append.prevLogTerm) == Agrees {
        h' := AcceptAndAcknowledge(h, i, c2, m);
        AcceptTermRole(LastNewEntry, c2, m.append);
      }
    }
  }

  lemma AcceptTermRole(rule: CommitRule, c: Core, req: AppendArgs)
    ensures var c' := AcceptEntries(rule, c, req);
            c'.term == c.term && c'.role == c.role && c'.votedFor == c.votedFor
  {
    var c1 := c.(log := StoreEntries(c.snapIndex, 0, c.log, req.entries));
    ApplyKeepsRest(c1.(commit := NewCommit(rule, c1, req)));
  }

  lemma ReceiveAppendReqOk(h: Hist, s: State, i: nat, m: Message) returns (h': Hist)
    requires StateOk(h, s) && i in s.nodes && m in s.net && m.AppendReq? && m.dst == i
    ensures var (c', result) := HandleAppendEntries(LastNewEntry, s.nodes[i], m.append);
            StateOk(h', Update(s, i, c', {AppendRep(i, m.src, m.append.term, m.callIndex, m.probe, result)}))
    ensures Extends(h, h')
  {
    assert NodeOk(h, i, s.nodes[i]) && MessageOk(h, s.nodes, m);
    hide NodeOk, HistOk, HandleAppendEntriesAt, AppendReqOk;
    h' := HandleAppendEntriesOk(h, i, s.nodes[i], m);
    var (c', result) := HandleAppendEntries(LastNewEntry, s.nodes[i], m.append);
    Assemble(h, h', s, i, c', {AppendRep(i, m.src, m.append.term, m.callIndex, m.probe, result)});
  }

  // ----- a leader sends -----

  /** A batch reaching the end of the leader's log, or an empty probe, says the truth. */
  lemma LeaderRequestOk(h: Hist, i: nat, c: Core, p: nat, entries: Log, index: nat, probe: Option<nat>)
    requires LeaderFits(h, i, c) && CommitFits(h, c) && Plain(c)
    requires 1 <= NextFor(c, p) <= |c.log| + 1
    requires entries == if probe.Some? then [] else c.log[NextFor(c, p) - 1..]
    requires probe.None? ==> index <= |c.log|
    ensures AppendReqOk(h, AppendReq(i, p, AppendRequest(c, p, entries), index, probe))
  {
  }

  lemma NextInRange(h: Hist, i: nat, c: Core, p: nat)
    requires NodeOk(h, i, c) && c.role == Leader
    ensures 1 <= NextFor(c, p) <= |c.log| + 1
  {
  }

  lemma HeartbeatOk(h: Hist, s: State, i: nat)
    requires StateOk(h, s) && i in s.nodes && s.nodes[i].role == Leader
    ensures StateOk(h, Update(s, i, s.nodes[i], Heartbeats(s.nodes[i])))
  {
    var c := s.nodes[i];
    assert NodeOk(h, i, c);
    forall m <- Heartbeats(c) ensures MessageOk(h, s.nodes[i := c], m) {
      HeartbeatRequestOk(h, i, c, m.dst);
    }
    Assemble(h, h, s, i, c, Heartbeats(c));
  }

  lemma HeartbeatRequestOk(h: Hist, i: nat, c: Core, p: nat)
    requires NodeOk(h, i, c) && c.role == Leader
    ensures AppendReqOk(h, AppendReq(i, p, AppendRequest(c, p, HeartbeatEntries(c, p)), HeartbeatIndex(c, p), None))
  {
    PlainLog(h, c);
    NextInRange(h, i, c, p);
    HeartbeatBatch(c, p);
    hide EntriesFrom, HeartbeatEntries, HeartbeatIndex, Contiguous, Follows, Committed;
    LeaderRequestOk(h, i, c, p, HeartbeatEntries(c, p), HeartbeatIndex(c, p), None);
  }

  lemma HeartbeatBatch(c: Core, p: nat)
    requires Contiguous(0, c.log) && 1 <= NextFor(c, p) <= |c.log| + 1
    ensures HeartbeatEntries(c, p) == c.log[NextFor(c, p) - 1..] && HeartbeatIndex(c, p) <= |c.log|
  {
    hide EntriesFrom, EntriesUpTo, Contiguous, NextFor;
    Suffix(c.log, NextFor(c, p) - 1);
    LastOfRest(c.log, NextFor(c, p) - 1);
  }

  lemma LastOfRest(log: Log, k: nat)
    requires Contiguous(0, log) && k <= |log|
    ensures log[k..] != [] ==> log[k..][|log[k..]| - 1].index == |log|
  {
  }

  lemma ProbesOk(h: Hist, s: State, i: nat, readId: nat)
    requires StateOk(h, s) && i in s.nodes && s.nodes[i].role == Leader
    ensures StateOk(h, Update(s, i, s.nodes[i], Probes(s.nodes[i], readId)))
  {
    var c := s.nodes[i];
    assert NodeOk(h, i, c);
    forall m <- Probes(c, readId) ensures MessageOk(h, s.nodes[i := c], m) {
      NextInRange(h, i, c, m.dst);
      LeaderRequestOk(h, i, c, m.dst, [], 0, Some(readId));
    }
    Assemble(h, h, s, i, c, Probes(c, readId));
  }

  lemma SubmitNodeOk(h: Hist, i: nat, c: Core, command: string) returns (h': Hist)
    requires HistOk(h) && NodeOk(h, i, c) && c.role == Leader
    ensures HistOk(h') && Extends(h, h') && OnlyBy(h, h', i) && h'.ballots == h.ballots
    ensures NodeOk(h', i, AppendCommand(c, command).value)
  {
    var e := Entry(c.term, LastLogIndex(c) + 1, command);
    PlainLog(h, c);
    NoLaterBallots(h, i, c);
    h' := Grow(h, c.term, e);
    GrowOk(h, c.term, e);
    GrownNodeOk(h, h', i, c, e);
  }

  lemma GrownNodeOk(h: Hist, h': Hist, i: nat, c: Core, e: Entry)
    requires HistOk(h) && HistOk(h') && Extends(h, h') && NodeOk(h, i, c) && c.role == Leader
    requires c.term in h.logs && c.term in h.elections && h' == Grow(h, c.term, e)
    ensures OnlyBy(h, h', i) && NodeOk(h', i, c.(log := c.log + [e]))
  {
    hide Follows, Committed, AcksFit, BallotsFit, Contiguous, HistOk;
    var c' := c.(log := c.log + [e]);
    forall p ensures MatchFits(h', c', p) { assert MatchFits(h, c, p); }
    LeaderNodeOk(h, h', i, c, c');
  }

  lemma SubmitOk(h: Hist, s: State, i: nat, command: string) returns (h': Hist)
    requires StateOk(h, s) && i in s.nodes && s.nodes[i].role == Leader
    ensures StateOk(h', Update(s, i, AppendCommand(s.nodes[i], command).value, {})) && Extends(h, h')
  {
    assert NodeOk(h, i, s.nodes[i]);
    h' := SubmitNodeOk(h, i, s.nodes[i], command);
    Assemble(h, h', s, i, AppendCommand(s.nodes[i], command).value, {});
  }

  lemma ReplicateOk(h: Hist, s: State, i: nat)
    requires StateOk(h, s) && i in s.nodes && s.nodes[i].role == Leader
    ensures var c := s.nodes[i]; StateOk(h, Update(s, i, c, Replications(c, LastLogIndex(c))))
  {
    var c := s.nodes[i];
    assert NodeOk(h, i, c);
    PlainLog(h, c);
    ReplicationsOk(h, i, c, s.nodes[i := c]);
    Assemble(h, h, s, i, c, Replications(c, LastLogIndex(c)));
  }

  lemma ReplicationsOk(h: Hist, i: nat, c: Core, nodes: map<nat, Core>)
    requires HistOk(h) && NodeOk(h, i, c) && c.role == Leader
    ensures forall m <- Replications(c, |c.log|) :: MessageOk(h, nodes, m)
  {
    forall m <- Replications(c, |c.log|) ensures MessageOk(h, nodes, m) {
      ReplicationOk(h, i, c, m.dst);
    }
  }

  lemma ReplicationOk(h: Hist, i: nat, c: Core, p: nat)
    requires HistOk(h) && NodeOk(h, i, c) && c.role == Leader
    ensures AppendReqOk(h, AppendReq(i, p, AppendRequest(c, p, SubmitEntries(c, p, |c.log|)), |c.log|, None))
  {
    PlainLog(h, c);
    NextInRange(h, i, c, p);
    SubmitEntriesAreSuffix(c, p);
    LeaderRequestOk(h, i, c, p, c.log[NextFor(c, p) - 1..], |c.log|, None);
  }

  /** For a submitted last entry, replication sends what a heartbeat would: the whole suffix. */
  lemma SubmitEntriesAreSuffix(c: Core, p: nat)
    requires Contiguous(0, c.log) && 1 <= NextFor(c, p) <= |c.log| + 1
    ensures SubmitEntries(c, p, |c.log|) == c.log[NextFor(c, p) - 1..] == HeartbeatEntries(c, p)
  {
    Suffix(c.log, NextFor(c, p) - 1);
  }

  // ----- a reply arrives at the leader -----

  lemma RecordReplyOk(h: Hist, i: nat, c: Core, p: nat, index: nat, result: AppendResult)
    requires HistOk(h) && NodeOk(h, i, c) && c.role == Leader && p in c.peers
    requires result.success && index > 0 ==> (p, c.term) in h.acks && h.acks[(p, c.term)] >= index
    ensures NodeOk(h, i, RecordReply(c, p, index, result))
  {
    var c' := RecordReply(c, p, index, result);
    NextInRange(h, i, c, p);
    assert AckOk(h, p, c.term);
    assert AcksKept(h, i, c'.log, c'.term, c'.term + 1);
    forall u: nat ensures BallotFits(h, i, c', u) { assert BallotFits(h, i, c, u); }
    forall v, u ensures VoteFits(h, i, c', v, u) { assert VoteFits(h, i, c, v, u); }
    forall q ensures MatchFits(h, c', q) { assert MatchFits(h, c, q); }
  }

  /** A majority count at an entry of the leader's own term chooses it. */
  lemma MajorityChooses(h: Hist, i: nat, c: Core, index: nat)
    requires HistOk(h) && NodeOk(h, i, c) && c.role == Leader
    requires 1 <= index <= |c.log| && c.log[index - 1].term == c.term
    requires 1 + |Replicated(c.acked, index)| >= Majority(c)
    ensures Chosen(h, c.term, index) && Committed(h, c.term, c.log[..index])
  {
    var others := Replicated(c.acked, index);
    var q := others + {i};
    assert i !in others;
    MajorityIsQuorum(h, i, c, q);
    forall v <- q ensures (v, c.term) in h.acks && h.acks[(v, c.term)] >= index {
      assert MatchFits(h, c, v);
    }
    assert AckedBy(h, q, c.term, index);
  }

  lemma HandleReplyOk(h: Hist, i: nat, c: Core, m: Message)
    requires HistOk(h) && NodeOk(h, i, c) && m.AppendRep? && AppendRepOk(h, m)
    requires m.src in h.servers && m.src != i
    requires c.role == Leader ==> m.callTerm == c.term
    ensures NodeOk(h, i, HandleReply(c, m)) && Moves(c, HandleReply(c, m))
  {
    StepDownOk(h, i, c, m.appended.term);
    var c1 := StepDown(c, m.appended.term);
    if m.probe.None? && c1.role == Leader {
      PeerOf(h, i, c1, m.src);
      hide NodeOk, HistOk, Replicated, ApplyCommitted, RecordReply, GetEntry;
      RecordReplyOk(h, i, c1, m.src, m.callIndex, m.appended);
      var c2 := RecordReply(c1, m.src, m.callIndex, m.appended);
      RecordKeepsRest(c1, m.src, m.callIndex, m.appended);
      CountedOk(h, i, c2, m.callIndex);
    }
  }

  lemma PeerOf(h: Hist, i: nat, c: Core, p: nat)
    requires NodeOk(h, i, c) && p in h.servers && p != i
    ensures p in c.peers
  {
  }

  lemma RecordKeepsRest(c: Core, p: nat, index: nat, result: AppendResult)
    ensures var c' := RecordReply(c, p, index, result); c' == c.(next := c'.next, acked := c'.acked)
  {
  }

  /** Committing what a majority count allows. */
  lemma CountedOk(h: Hist, i: nat, c: Core, index: nat)
    requires HistOk(h) && NodeOk(h, i, c) && c.role == Leader
    ensures index > c.commit && GetEntry(c, index).Some? && GetEntry(c, index).value.term == c.term
            && 1 + |Replicated(c.acked, index)| >= Majority(c) ==>
              var c' := ApplyCommitted(c.(commit := index));
              NodeOk(h, i, c') && c'.term == c.term && c'.role == c.role
  {
    if index > c.commit && GetEntry(c, index).Some? && GetEntry(c, index).value.term == c.term
       && 1 + |Replicated(c.acked, index)| >= Majority(c) {
      assert c.snapIndex == 0;
      hide HistOk, Committed, Configured, NodeOk, Replicated;
      MajorityChooses(h, i, c, index);
      CommitNodeOk(h, i, c, index);
    }
  }

  lemma ReceiveAppendRepOk(h: Hist, s: State, i: nat, m: Message)
    requires StateOk(h, s) && i in s.nodes && m in s.net && m.AppendRep? && m.dst == i
    requires s.nodes[i].role == Leader ==> m.callTerm == s.nodes[i].term
    ensures StateOk(h, Update(s, i, HandleReply(s.nodes[i], m), {}))
  {
    assert NodeOk(h, i, s.nodes[i]) && MessageOk(h, s.nodes, m);
    HandleReplyOk(h, i, s.nodes[i], m);
    Assemble(h, h, s, i, HandleReply(s.nodes[i], m), {});
  }

  // ----- crashes -----

  lemma SnapshotRefusedOk(h: Hist, s: State, i: nat, term: nat)
    requires StateOk(h, s) && i in s.nodes
    ensures StateOk(h, Update(s, i, StepDown(s.nodes[i], term), {}))
  {
    assert NodeOk(h, i, s.nodes[i]);
    StepDownOk(h, i, s.nodes[i], term);
    Assemble(h, h, s, i, StepDown(s.nodes[i], term), {});
  }

  lemma RestartOk(h: Hist, i: nat, c: Core)
    requires NodeOk(h, i, c)
    ensures NodeOk(h, i, Restart(c, DiskOf(c)))
  {
    var c' := Restart(c, DiskOf(c));
    assert c'.log[..0] == [];
    assert AcksKept(h, i, c'.log, c'.term, c'.term + 1);
    forall u: nat ensures BallotFits(h, i, c', u) { assert BallotFits(h, i, c, u); }
    forall v, u ensures VoteFits(h, i, c', v, u) { assert VoteFits(h, i, c, v, u); }
  }

  lemma CrashOk(h: Hist, s: State, i: nat)
    requires StateOk(h, s) && i in s.nodes
    ensures StateOk(h, Update(s, i, Restart(s.nodes[i], DiskOf(s.nodes[i])), {}))
  {
    assert NodeOk(h, i, s.nodes[i]);
    RestartOk(h, i, s.nodes[i]);
    Assemble(h, h, s, i, Restart(s.nodes[i], DiskOf(s.nodes[i])), {});
  }

  lemma CrashInTermUpdateOk(h: Hist, s: State, i: nat, term: nat, vote: Option<nat>)
    requires StateOk(h, s) && i in s.nodes && term > s.nodes[i].term
    ensures StateOk(h, Update(s, i, Restart(s.nodes[i], Stored(term, vote, s.nodes[i].log, None)), {}))
  {
    var c := s.nodes[i];
    assert NodeOk(h, i, c);
    var c1 := c.(term := term, votedFor := vote, role := Follower);
    HigherTermOk(h, i, c, c1);
    RestartOk(h, i, c1);
    Assemble(h, h, s, i, Restart(c, Stored(term, vote, c.log, None)), {});
  }

  /** The disk in the middle of storing a batch holds the old log, part of the leader's, or the
      old log cut where it departs from the leader's. */
  lemma PartialStore(h: Hist, c: Core, m: Message, stored: nat, cut: bool)
    requires HistOk(h) && Follows(h.logs, c.log) && Plain(c)
    requires m.AppendReq? && AppendReqOk(h, m) && stored <= |m.append.entries|
    requires CheckPrev(c, m.append.prevLogIndex, m.append.prevLogTerm) == Agrees
    ensures var log', leader := DiskInAppend(c, m.append, stored, cut).log, h.logs[m.append.term];
            (log' == c.log || log' <= leader) && KeepsCommon(c.log, log', leader)
  {
    var r := m.append;
    StoreLeaderBatch(h, c, m, stored);
    var log1 := StoreEntries(0, 0, c.log, r.entries[..stored]);
    if cut && stored < |r.entries| && Conflicting(c.snapIndex, log1, r.entries[stored]) {
      PartialCut(h, c, m, stored);
    }
  }

  lemma PartialCut(h: Hist, c: Core, m: Message, stored: nat)
    requires HistOk(h) && Follows(h.logs, c.log) && Plain(c)
    requires m.AppendReq? && AppendReqOk(h, m) && stored < |m.append.entries|
    requires CheckPrev(c, m.append.prevLogIndex, m.append.prevLogTerm) == Agrees
    requires var log1 := StoreEntries(0, 0, c.log, m.append.entries[..stored]);
             Conflicting(0, log1, m.append.entries[stored])
             && Replaces(c.log, log1, h.logs[m.append.term], m.append.prevLogIndex + stored)
    ensures var log1 := StoreEntries(0, 0, c.log, m.append.entries[..stored]);
            var log', leader := CutLog(0, log1, m.append.entries[stored].index), h.logs[m.append.term];
            log' <= leader && KeepsCommon(c.log, log', leader)
  {
    var prev, e, leader := m.append.prevLogIndex, m.append.entries[stored], h.logs[m.append.term];
    var log1 := StoreEntries(0, 0, c.log, m.append.entries[..stored]);
    SliceContiguous(h, m.append.term, prev, m.append.entries);
    assert e == leader[prev + stored] && e.index == prev + stored + 1;
    assert log1 == c.log;
    CutAtDeparture(c.log, leader, prev + stored, e);
  }

  lemma CutAtDeparture(log: Log, leader: Log, at: nat, e: Entry)
    requires Common(log, leader, at) && at < |log| && at < |leader|
    requires e == leader[at] && log[at].term != e.term
    ensures log[..at] <= leader && KeepsCommon(log, log[..at], leader)
  {
    forall n: nat | Common(log, leader, n) ensures Common(log[..at], leader, n) {
      CommonPointwise(log, leader, n);
      assert log[..at][..n] == log[..n];
    }
  }

  lemma CrashInAppendOk(h: Hist, s: State, i: nat, m: Message, stored: nat, cut: bool)
    requires StateOk(h, s) && i in s.nodes && m in s.net && m.AppendReq? && m.dst == i
    requires stored <= |m.append.entries| && m.append.term >= s.nodes[i].term
    requires CheckPrev(s.nodes[i], m.append.prevLogIndex, m.append.prevLogTerm) == Agrees
    ensures StateOk(h, Update(s, i, Restart(s.nodes[i], DiskInAppend(s.nodes[i], m.append, stored, cut)), {}))
  {
    var c := s.nodes[i];
    assert NodeOk(h, i, c) && MessageOk(h, s.nodes, m);
    PartialStore(h, c, m, stored, cut);
    StepDownOk(h, i, c, m.append.term);
    var c1 := StepDown(c, m.append.term);
    FollowOk(h, i, c1);
    var c2 := c1.(role := Follower);
    var disk := DiskInAppend(c, m.append, stored, cut);
    StoreNodeOk(h, i, c2, disk.log);
    RestartOk(h, i, c2.(log := disk.log));
    Assemble(h, h, s, i, Restart(c, disk), {});
  }
}
