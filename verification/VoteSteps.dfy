/** Elections keep the cluster invariant (src/core/raft_core.rs:359-401, 637-685, 847-871). */
module VoteSteps {
  import opened Types
  import opened Collections
  import opened CoreSteps
  import opened History
  import opened HistorySteps
  import opened Cluster
  import opened Invariant

  lemma PlainLog(h: Hist, c: Core)
    requires Follows(h.logs, c.log) && Plain(c)
    ensures Contiguous(0, c.log)
    ensures LastLogIndex(c) == |c.log| && LastLogTerm(c) == LastTermOf(c.log)
  {
    forall k | 0 <= k < |c.log| ensures c.log[k].index == k + 1 {
      assert Rooted(h.logs, c.log, k);
    }
  }

  lemma CommittedLater(h: Hist, t: nat, u: nat, p: Log)
    requires Committed(h, t, p) && t <= u
    ensures Committed(h, u, p)
  {
  }

  lemma AcksKeptWider(h: Hist, v: nat, log: Log, bound: int, before: nat, bound': int, before': nat)
    requires AcksKept(h, v, log, bound, before) && bound <= bound'
    requires forall t | (v, t) in h.acks && t < before' :: t < before
    ensures AcksKept(h, v, log, bound', before')
  {
    forall t: nat, j: nat | (v, t) in h.acks && t < before' && t in h.logs && j <= h.acks[(v, t)] && j <= |h.logs[t]|
      ensures Kept(h, log, bound', t, j)
    {
      assert Kept(h, log, bound, t, j);
    }
  }

  /** Adopting a higher term is harmless whatever the reason. */
  lemma HigherTermOk(h: Hist, i: nat, c: Core, c': Core)
    requires NodeOk(h, i, c) && c'.term > c.term && c'.role == Follower
    requires c' == c.(term := c'.term, votedFor := c'.votedFor, role := Follower)
    ensures NodeOk(h, i, c')
  {
    CommittedLater(h, c.term, c'.term, c.log[..c.commit]);
    AcksKeptWider(h, i, c.log, c.term, c.term + 1, c'.term, c'.term + 1);
    forall u: nat ensures BallotFits(h, i, c', u) { assert BallotFits(h, i, c, u); }
    forall v, u ensures VoteFits(h, i, c', v, u) { assert VoteFits(h, i, c, v, u); }
  }

  /** Becoming a follower in the same term. */
  lemma FollowOk(h: Hist, i: nat, c: Core)
    requires NodeOk(h, i, c)
    ensures NodeOk(h, i, c.(role := Follower))
  {
    var c' := c.(role := Follower);
    assert AcksKept(h, i, c'.log, c'.term, c'.term + 1);
    forall u: nat ensures BallotFits(h, i, c', u) { assert BallotFits(h, i, c, u); }
    forall v, u ensures VoteFits(h, i, c', v, u) { assert VoteFits(h, i, c, v, u); }
  }

  lemma StepDownOk(h: Hist, i: nat, c: Core, term: nat)
    requires NodeOk(h, i, c)
    ensures NodeOk(h, i, StepDown(c, term)) && Moves(c, StepDown(c, term))
  {
    if term > c.term { HigherTermOk(h, i, c, StepDown(c, term)); }
  }

  // ----- start of an election -----

  function SelfBallot(i: nat, c: Core): Ballot { Ballot(i, c.log, LastTermOf(c.log), |c.log|) }

  /** A node that times out votes for itself in a term nobody has led it in. */
  lemma VoteForSelf(h: Hist, i: nat, c: Core) returns (h': Hist)
    requires HistOk(h) && NodeOk(h, i, c)
    ensures h' == AddBallot(h, i, c.term + 1, SelfBallot(i, c))
    ensures HistOk(h') && Extends(h, h') && (i, c.term + 1) !in h.ballots
    ensures c.term + 1 in h.elections ==> h.elections[c.term + 1].leader != i
  {
    var t := c.term + 1;
    h' := AddBallot(h, i, t, SelfBallot(i, c));
    assert BallotFits(h, i, c, t);
    AcksKeptWider(h, i, c.log, c.term, c.term + 1, t - 1, t);
    AddBallotOk(h, i, t, SelfBallot(i, c));
    if t in h.elections {
      assert ElectionOk(h, t);
      assert i in h.elections[t].quorum ==> VoteOk(h, t, i);
    }
  }

  lemma CandidateNodeOk(h: Hist, h': Hist, i: nat, c: Core)
    requires HistOk(h) && NodeOk(h, i, c)
    requires h' == AddBallot(h, i, c.term + 1, SelfBallot(i, c)) && (i, c.term + 1) !in h.ballots
    requires HistOk(h') && Extends(h, h')
    requires c.term + 1 in h.elections ==> h.elections[c.term + 1].leader != i
    ensures NodeOk(h', i, StartElection(c))
  {
    var c', t := StartElection(c), c.term + 1;
    FollowsStays(h, h', c.log);
    CommittedStays(h, h', c.term, c.log[..c.commit]);
    CommittedLater(h', c.term, t, c.log[..c.commit]);
    AcksKeptWider(h, i, c.log, c.term, c.term + 1, t, t + 1);
    AcksKeptStays(h, h', i, c.log, t, t + 1);
    forall u: nat ensures BallotFits(h', i, c', u) { assert BallotFits(h, i, c, u); }
    forall v, u ensures VoteFits(h', i, c', v, u) { assert VoteFits(h, i, c, v, u); }
  }

  lemma TimeoutOk(h: Hist, s: State, i: nat) returns (h': Hist)
    requires StateOk(h, s) && i in s.nodes
    ensures StateOk(h', Update(s, i, StartElection(s.nodes[i]), {})) && Extends(h, h')
  {
    assert NodeOk(h, i, s.nodes[i]);
    h' := VoteForSelf(h, i, s.nodes[i]);
    CandidateNodeOk(h, h', i, s.nodes[i]);
    Assemble(h, h', s, i, StartElection(s.nodes[i]), {});
  }

  lemma RequestVotesOk(h: Hist, s: State, i: nat)
    requires StateOk(h, s) && i in s.nodes
    ensures StateOk(h, Update(s, i, s.nodes[i], VoteRequests(s.nodes[i])))
  {
    var c := s.nodes[i];
    assert NodeOk(h, i, c);
    PlainLog(h, c);
    Assemble(h, h, s, i, c, VoteRequests(c));
  }

  // ----- a vote is asked for -----

  lemma GrantNodeOk(h: Hist, i: nat, c: Core, b: Ballot)
    requires HistOk(h) && NodeOk(h, i, c) && b.cand != i
    requires c.role == Candidate ==> c.votedFor == Some(i)
    requires c.votedFor.None? || c.votedFor == Some(b.cand)
    requires HistOk(AddBallot(h, i, c.term, b)) && Extends(h, AddBallot(h, i, c.term, b))
    ensures NodeOk(AddBallot(h, i, c.term, b), i, c.(votedFor := Some(b.cand)))
  {
    var h', c' := AddBallot(h, i, c.term, b), c.(votedFor := Some(b.cand));
    FollowsStays(h, h', c.log);
    CommittedStays(h, h', c.term, c.log[..c.commit]);
    AcksKeptStays(h, h', i, c.log, c.term, c.term + 1);
    assert BallotFits(h, i, c, c.term);
    forall u: nat ensures BallotFits(h', i, c', u) { assert BallotFits(h, i, c, u); }
    forall v, u ensures VoteFits(h', i, c', v, u) { assert VoteFits(h, i, c, v, u); }
    if c.role == Leader { forall p ensures MatchFits(h', c', p) { assert MatchFits(h, c, p); } }
  }

  /** A vote that the up-to-date check and the vote so far allow extends the history. */
  lemma CastVote(h: Hist, i: nat, c: Core, cand: nat, lastTerm: nat, lastIndex: nat) returns (h': Hist)
    requires HistOk(h) && NodeOk(h, i, c) && cand != i
    requires c.role == Candidate ==> c.votedFor == Some(i)
    requires c.votedFor.None? || c.votedFor == Some(cand)
    requires UpToDate(lastTerm, lastIndex, LastTermOf(c.log), |c.log|)
    ensures h' == AddBallot(h, i, c.term, Ballot(cand, c.log, lastTerm, lastIndex))
    ensures HistOk(h') && Extends(h, h') && NodeOk(h', i, c.(votedFor := Some(cand)))
    ensures (i, c.term) in h'.ballots && h'.ballots[(i, c.term)].cand == cand
  {
    var b := Ballot(cand, c.log, lastTerm, lastIndex);
    h' := AddBallot(h, i, c.term, b);
    if c.term !in h.elections { BoundBelowElection(h, i, c); }
    AddBallotOk(h, i, c.term, b);
    GrantNodeOk(h, i, c, b);
    assert BallotFits(h', i, c.(votedFor := Some(cand)), c.term);
  }

  /** The ballot is what the candidate asked for. */
  lemma NewBallotFits(h: Hist, h': Hist, s: State, i: nat, c: Core, m: Message)
    requires m in s.net && m.VoteReq? && MessageOk(h, s.nodes, m) && m.vote.term == c.term
    requires h' == AddBallot(h, i, c.term, Ballot(m.src, c.log, m.vote.lastLogTerm, m.vote.lastLogIndex))
    ensures forall k, u | (i, u) in h'.ballots && (i, u) !in h.ballots && k in s.nodes && k != i ::
              VoteFits(h', k, s.nodes[k], i, u)
  {
    forall k, u | (i, u) in h'.ballots && (i, u) !in h.ballots && k in s.nodes && k != i
      ensures VoteFits(h', k, s.nodes[k], i, u)
    {
      assert u == m.vote.term;
    }
  }

  lemma GrantIsTrue(h: Hist, h': Hist, s: State, i: nat, c: Core, m: Message, nodes: map<nat, Core>)
    requires m.VoteReq? && MessageOk(h, s.nodes, m) && m.dst == i && m.vote.term == c.term && h'.servers == h.servers
    requires (i, c.term) in h'.ballots && h'.ballots[(i, c.term)].cand == m.src
    ensures MessageOk(h', nodes, VoteRep(i, m.src, m.vote.term, VoteResult(c.term, true)))
  {
  }

  /** Granting a vote that was asked for by a real request. */
  lemma GrantOk(h: Hist, s: State, i: nat, c: Core, m: Message) returns (h': Hist)
    requires StateOk(h, s) && i in s.nodes && m in s.net && m.VoteReq? && m.dst == i
    requires NodeOk(h, i, c) && Moves(s.nodes[i], c) && c.term == m.vote.term
    requires c.role == Candidate ==> c.votedFor == Some(i)
    requires c.votedFor.None? || c.votedFor == Some(m.vote.candidateId)
    requires UpToDate(m.vote.lastLogTerm, m.vote.lastLogIndex, LastTermOf(c.log), |c.log|)
    ensures var c' := c.(votedFor := Some(m.vote.candidateId));
            StateOk(h', Update(s, i, c', {VoteRep(i, m.src, m.vote.term, VoteResult(c.term, true))}))
    ensures Extends(h, h')
  {
    assert MessageOk(h, s.nodes, m);
    h' := CastVote(h, i, c, m.src, m.vote.lastLogTerm, m.vote.lastLogIndex);
    NewBallotFits(h, h', s, i, c, m);
    var c' := c.(votedFor := Some(m.src));
    GrantIsTrue(h, h', s, i, c, m, s.nodes[i := c']);
    hide NodeOk, HistOk, Extends, UpToDate, VoteFits, MessageOk;
    Assemble(h, h', s, i, c', {VoteRep(i, m.src, m.vote.term, VoteResult(c.term, true))});
  }

  /** Before term t has a leader, what a node in term t lost was lost to an earlier leader. */
  lemma BoundBelowElection(h: Hist, i: nat, c: Core)
    requires HistOk(h) && NodeOk(h, i, c) && c.term !in h.elections
    ensures AcksKept(h, i, c.log, c.term - 1, c.term)
  {
    var t, bound: int := c.term, c.term - 1;
    forall t': nat, j: nat | (i, t') in h.acks && t' < t && t' in h.logs && j <= h.acks[(i, t')] && j <= |h.logs[t']|
      ensures Kept(h, c.log, bound, t', j)
    {
      assert Kept(h, c.log, t, t', j);
      if !(h.logs[t'][..j] <= c.log) {
        var w :| w in h.logs && t' < w <= t && !(h.logs[t'][..j] <= h.logs[w]);
        assert LogOk(h, w);
        assert w <= t - 1;
      }
    }
  }

  lemma SelfVote(h: Hist, i: nat, c: Core)
    requires NodeOk(h, i, c) && c.role == Candidate
    ensures c.votedFor == Some(i)
  {
    assert BallotFits(h, i, c, c.term);
  }

  lemma ReceiveVoteReqOk(h: Hist, s: State, i: nat, m: Message) returns (h': Hist)
    requires StateOk(h, s) && i in s.nodes && m in s.net && m.VoteReq? && m.dst == i
    ensures var (c', result) := HandleRequestVote(s.nodes[i], m.vote);
            StateOk(h', Update(s, i, c', {VoteRep(i, m.src, m.vote.term, result)}))
    ensures Extends(h, h')
  {
    var c := s.nodes[i];
    assert NodeOk(h, i, c) && MessageOk(h, s.nodes, m);
    StepDownOk(h, i, c, m.vote.term);
    var c1 := StepDown(c, m.vote.term);
    PlainLog(h, c1);
    var (c', result) := HandleRequestVote(c, m.vote);
    if result.granted {
      if c1.role == Candidate { SelfVote(h, i, c1); }
      h' := GrantOk(h, s, i, c1, m);
    } else {
      h' := h;
      var rep := VoteRep(i, m.src, m.vote.term, result);
      Assemble(h, h, s, i, c', {rep});
    }
  }

  // ----- a vote arrives -----

  /** More than half of the servers by the source's count is a quorum. */
  lemma MajorityIsQuorum(h: Hist, i: nat, c: Core, q: set<nat>)
    requires Configured(h.servers, i, c) && q <= h.servers && |q| >= Majority(c)
    ensures Quorum(h, q)
  {
  }

  lemma ElectionTermFree(h: Hist, i: nat, c: Core, q: set<nat>)
    requires HistOk(h) && NodeOk(h, i, c) && c.role == Candidate
    requires q == SetOf(c.votes) && Quorum(h, q)
    ensures c.term !in h.elections && c.term !in h.logs && TermsUpTo(c.log, c.term - 1)
    ensures c.term >= 1
  {
    if c.term in h.elections {
      OneLeaderPerTerm(h, c.term, q, i);
    }
    forall k | 0 <= k < |c.log| ensures c.log[k].term <= c.term - 1 {
      assert Rooted(h.logs, c.log, k);
    }
  }

  lemma NewLeaderMaps(c: Core)
    requires forall p <- c.next :: p in c.peers
    requires forall p <- c.acked :: p in c.peers
    ensures var c' := BecomeLeader(c);
            && (forall p <- c'.next :: p in c.peers && c'.next[p] == LastLogIndex(c) + 1)
            && (forall p <- c'.acked :: p in c.peers && c'.acked[p] == 0)
  {
  }

  function ElectedBy(h: Hist, i: nat, c: Core, q: set<nat>): Hist {
    Elect(h, c.term, i, q, c.log, Entry(c.term, |c.log| + 1, NOOP_COMMAND))
  }

  lemma NewLeaderNodeOk(h: Hist, h': Hist, i: nat, c: Core, q: set<nat>)
    requires HistOk(h) && HistOk(h') && Extends(h, h') && NodeOk(h, i, c) && c.term !in h.logs
    requires h' == ElectedBy(h, i, c, q)
    ensures NodeOk(h', i, BecomeLeader(c))
  {
    PlainLog(h, c);
    NewLeaderMaps(c);
    var c' := BecomeLeader(c);
    forall p ensures MatchFits(h', c', p) { }
    LeaderNodeOk(h, h', i, c, c');
  }

  ghost predicate VotedFor(h: Hist, q: set<nat>, i: nat, c: Core) {
    forall v <- q :: (v, c.term) in h.ballots && h.ballots[(v, c.term)].cand == i
                     && h.ballots[(v, c.term)].lastTerm == LastTermOf(c.log)
                     && h.ballots[(v, c.term)].lastIndex == |c.log|
  }

  /** The votes a candidate has counted are real, for it, and for its present log. */
  lemma WinningQuorum(h: Hist, i: nat, c: Core) returns (q: set<nat>)
    requires HistOk(h) && NodeOk(h, i, c) && c.role == Candidate && |c.votes| >= Majority(c)
    ensures Quorum(h, q) && i in q && VotedFor(h, q, i, c)
    ensures c.term !in h.elections && c.term !in h.logs && c.term >= 1 && TermsUpTo(c.log, c.term - 1)
  {
    DistinctSize(c.votes);
    q := SetOf(c.votes);
    MajorityIsQuorum(h, i, c, q);
    ElectionTermFree(h, i, c, q);
    forall v <- q ensures (v, c.term) in h.ballots && h.ballots[(v, c.term)].cand == i
                          && h.ballots[(v, c.term)].lastTerm == LastTermOf(c.log)
                          && h.ballots[(v, c.term)].lastIndex == |c.log| {
      assert VoteFits(h, i, c, v, c.term);
    }
  }

  lemma NoLaterBallots(h: Hist, i: nat, c: Core)
    requires BallotsFit(h, i, c)
    ensures forall u: nat | u > c.term :: (i, u) !in h.ballots
  {
    forall u: nat | u > c.term ensures (i, u) !in h.ballots { assert BallotFits(h, i, c, u); }
  }

  lemma ElectedByOk(h: Hist, i: nat, c: Core, q: set<nat>)
    requires HistOk(h) && Follows(h.logs, c.log) && BallotsFit(h, i, c)
    requires Quorum(h, q) && i in q && VotedFor(h, q, i, c)
    requires c.term !in h.elections && c.term !in h.logs && c.term >= 1 && TermsUpTo(c.log, c.term - 1)
    ensures HistOk(ElectedBy(h, i, c, q)) && Extends(h, ElectedBy(h, i, c, q)) && OnlyBy(h, ElectedBy(h, i, c, q), i)
  {
    NoLaterBallots(h, i, c);
    ElectOk(h, c.term, i, q, c.log, Entry(c.term, |c.log| + 1, NOOP_COMMAND));
  }

  /** A candidate with a majority of votes extends the history by its election. */
  lemma WinElection(h: Hist, i: nat, c: Core) returns (h': Hist)
    requires HistOk(h) && NodeOk(h, i, c) && c.role == Candidate && |c.votes| >= Majority(c)
    ensures HistOk(h') && Extends(h, h') && OnlyBy(h, h', i) && NodeOk(h', i, BecomeLeader(c))
    ensures h'.ballots == h.ballots
  {
    var q := WinningQuorum(h, i, c);
    h' := ElectedBy(h, i, c, q);
    ElectedByOk(h, i, c, q);
    NewLeaderNodeOk(h, h', i, c, q);
  }

  lemma BecomeLeaderOk(h: Hist, s: State, i: nat, c: Core) returns (h': Hist)
    requires StateOk(h, s) && i in s.nodes && NodeOk(h, i, c) && Moves(s.nodes[i], c)
    requires c.role == Candidate && |c.votes| >= Majority(c)
    ensures StateOk(h', Update(s, i, BecomeLeader(c), {})) && Extends(h, h')
  {
    h' := WinElection(h, i, c);
    Assemble(h, h', s, i, BecomeLeader(c), {});
  }

  /** A node whose log grew by one entry of its own, now the end of its leader's log. */
  lemma LeaderNodeOk(h: Hist, h': Hist, i: nat, c: Core, c': Core)
    requires HistOk(h) && HistOk(h') && Extends(h, h') && NodeOk(h, i, c)
    requires |c'.log| == |c.log| + 1 && c.log <= c'.log
    requires c' == c.(role := Leader, log := c'.log, next := c'.next, acked := c'.acked)
    requires c.term in h'.logs && h'.logs[c.term] == c'.log
    requires c.term in h'.elections && h'.elections[c.term].leader == i
    requires h'.ballots == h.ballots
    requires SameAcks(h, h', i, c.term) && (i, c.term) in h'.acks && h'.acks[(i, c.term)] == |c'.log|
    requires forall a <- h'.acks :: a in h.acks || a == (i, c.term)
    requires forall p <- c'.next :: 1 <= c'.next[p] <= |c'.log| + 1 && p in c.peers
    requires forall p <- c'.acked :: p in c.peers
    requires forall p :: MatchFits(h', c', p)
    ensures NodeOk(h', i, c')
  {
    assert LogOk(h', c.term);
    CommittedStays(h, h', c.term, c.log[..c.commit]);
    assert c'.log[..c.commit] == c.log[..c.commit];
    forall u: nat ensures BallotFits(h', i, c', u) { assert BallotFits(h, i, c, u); }
    forall v, u ensures VoteFits(h', i, c', v, u) { assert VoteFits(h, i, c, v, u); }
    forall t: nat, j: nat | (i, t) in h'.acks && t < c.term + 1 && t in h'.logs && j <= h'.acks[(i, t)]
                            && j <= |h'.logs[t]|
      ensures Kept(h', c'.log, c.term, t, j)
    {
      if t < c.term {
        assert AckOk(h, i, t);
        assert Kept(h, c.log, c.term, t, j);
        KeptStays(h, h', c.log, c.term, t, j);
      }
    }
  }

  lemma CountVoteOk(h: Hist, i: nat, c: Core, v: nat)
    requires NodeOk(h, i, c) && c.role == Candidate && v !in c.votes
    requires v in h.servers && (v, c.term) in h.ballots && h.ballots[(v, c.term)].cand == i
    ensures NodeOk(h, i, c.(votes := c.votes + [v]))
  {
    var c' := c.(votes := c.votes + [v]);
    assert AcksKept(h, i, c'.log, c'.term, c'.term + 1);
    forall u: nat ensures BallotFits(h, i, c', u) { assert BallotFits(h, i, c, u); }
    forall w, u ensures VoteFits(h, i, c', w, u) { assert VoteFits(h, i, c, w, u); }
  }

  lemma ReceiveVoteRepOk(h: Hist, s: State, i: nat, m: Message) returns (h': Hist)
    requires StateOk(h, s) && i in s.nodes && m in s.net && m.VoteRep? && m.dst == i
    requires s.nodes[i].role == Candidate ==> m.callTerm == s.nodes[i].term
    ensures StateOk(h', Update(s, i, HandleVoteResult(s.nodes[i], m.src, m.voted).0, {})) && Extends(h, h')
  {
    var c := s.nodes[i];
    assert NodeOk(h, i, c) && MessageOk(h, s.nodes, m);
    StepDownOk(h, i, c, m.voted.term);
    var c1 := StepDown(c, m.voted.term);
    if c1.role != Candidate {
      h' := h;
      Assemble(h, h, s, i, c1, {});
    } else {
      var c2 := if m.voted.granted && m.src !in c1.votes then c1.(votes := c1.votes + [m.src]) else c1;
      if c2 != c1 { CountVoteOk(h, i, c1, m.src); }
      assert Moves(s.nodes[i], c2) && NodeOk(h, i, c2);
      hide StateOk, NodeOk, MessageOk, BecomeLeader, Extends;
      h' := CountedOk(h, s, i, c2);
    }
  }

  lemma CountedOk(h: Hist, s: State, i: nat, c: Core) returns (h': Hist)
    requires StateOk(h, s) && i in s.nodes && Moves(s.nodes[i], c) && NodeOk(h, i, c) && c.role == Candidate
    ensures StateOk(h', Update(s, i, if |c.votes| >= Majority(c) then BecomeLeader(c) else c, {})) && Extends(h, h')
  {
    if |c.votes| >= Majority(c) {
      h' := BecomeLeaderOk(h, s, i, c);
    } else {
      h' := h;
      Assemble(h, h, s, i, c, {});
    }
  }
}
