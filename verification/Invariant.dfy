/** What every reachable cluster state satisfies, relative to its history. */
module Invariant {
  import opened Types
  import opened Collections
  import opened History
  import opened HistorySteps
  import opened Cluster
  import KvStore

  // ----- one node -----

  predicate Plain(c: Core) { c.snapIndex == 0 && c.snapTerm == 0 && c.threshold == 0 }

  ghost predicate LogFits(h: Hist, c: Core) { Follows(h.logs, c.log) && TermsUpTo(c.log, c.term) }

  /** What is committed was chosen, and the data is exactly the committed log replayed. */
  ghost predicate CommitFits(h: Hist, c: Core) {
    && c.applied == c.commit <= |c.log|
    && Committed(h, c.term, c.log[..c.commit])
    && c.data == KvStore.Replay(c.log[..c.commit])
  }

  ghost predicate BallotFits(h: Hist, i: nat, c: Core, u: nat) {
    (i, u) in h.ballots ==> u <= c.term && (u == c.term ==> c.votedFor == Some(h.ballots[(i, u)].cand))
  }

  ghost predicate BallotsFit(h: Hist, i: nat, c: Core) {
    forall u: nat {:trigger BallotFits(h, i, c, u)} :: BallotFits(h, i, c, u)
  }

  ghost predicate AcksFit(h: Hist, i: nat, c: Core) {
    && (forall t | (i, t) in h.acks :: t <= c.term)
    && AcksKept(h, i, c.log, c.term, c.term + 1)
  }

  /** A vote for i in term u: i has been in that term, and if i is still its candidate the vote
      was asked for with i's present log. */
  ghost predicate VoteFits(h: Hist, i: nat, c: Core, v: nat, u: nat) {
    (v, u) in h.ballots && h.ballots[(v, u)].cand == i ==>
      && u <= c.term
      && (c.role == Candidate && u == c.term ==>
            h.ballots[(v, u)].lastTerm == LastTermOf(c.log) && h.ballots[(v, u)].lastIndex == |c.log|)
  }

  ghost predicate CandidateFits(h: Hist, i: nat, c: Core) {
    && c.term >= 1
    && Distinct(c.votes)
    && i in c.votes
    && (forall v <- c.votes :: v in h.servers && (v, c.term) in h.ballots && h.ballots[(v, c.term)].cand == i)
    && (c.term in h.elections ==> h.elections[c.term].leader != i)
  }

  ghost predicate MatchFits(h: Hist, c: Core, p: nat) {
    p in c.acked && c.acked[p] > 0 ==> (p, c.term) in h.acks && h.acks[(p, c.term)] >= c.acked[p]
  }

  ghost predicate LeaderFits(h: Hist, i: nat, c: Core) {
    && c.term in h.logs && c.term in h.elections
    && c.log == h.logs[c.term]
    && h.elections[c.term].leader == i
    && (i, c.term) in h.acks && h.acks[(i, c.term)] == |c.log|
    && (forall p {:trigger MatchFits(h, c, p)} :: MatchFits(h, c, p))
    && (forall p <- c.next :: c.next[p] <= |c.log| + 1)
  }

  ghost predicate NodeOk(h: Hist, i: nat, c: Core) {
    && Configured(h.servers, i, c)
    && Plain(c)
    && (forall p <- c.next :: c.next[p] >= 1 && p in c.peers)
    && (forall p <- c.acked :: p in c.peers)
    && LogFits(h, c)
    && CommitFits(h, c)
    && BallotsFit(h, i, c)
    && AcksFit(h, i, c)
    && (forall v, u {:trigger VoteFits(h, i, c, v, u)} :: VoteFits(h, i, c, v, u))
    && (c.role == Candidate ==> CandidateFits(h, i, c))
    && (c.role == Leader ==> LeaderFits(h, i, c))
  }

  // ----- one message -----

  ghost predicate VoteReqOk(nodes: map<nat, Core>, src: nat, vote: VoteArgs) {
    && src in nodes
    && vote.candidateId == src
    && vote.term <= nodes[src].term
    && (nodes[src].role == Candidate && vote.term == nodes[src].term ==>
          vote.lastLogTerm == LastTermOf(nodes[src].log) && vote.lastLogIndex == |nodes[src].log|)
  }

  ghost predicate AppendReqOk(h: Hist, m: Message)
    requires m.AppendReq?
  {
    var r := m.append;
    && r.term in h.logs && r.term in h.elections
    && h.elections[r.term].leader == m.src
    && var log := h.logs[r.term];
    && r.prevLogIndex + |r.entries| <= |log|
    && r.entries == log[r.prevLogIndex..r.prevLogIndex + |r.entries|]
    && (r.prevLogIndex > 0 ==> r.prevLogTerm == log[r.prevLogIndex - 1].term)
    && r.leaderCommit <= |log|
    && Committed(h, r.term, log[..r.leaderCommit])
    && (m.probe.None? ==> r.leaderCommit <= r.prevLogIndex + |r.entries|
                          && m.callIndex <= r.prevLogIndex + |r.entries|)
  }

  ghost predicate AppendRepOk(h: Hist, m: Message)
    requires m.AppendRep?
  {
    m.appended.success && m.probe.None? && m.callIndex > 0 ==>
      (m.src, m.callTerm) in h.acks && h.acks[(m.src, m.callTerm)] >= m.callIndex
  }

  ghost predicate MessageOk(h: Hist, nodes: map<nat, Core>, m: Message) {
    && m.src in h.servers && m.dst in h.servers && m.src != m.dst
    && match m
       case VoteReq(src, _, vote) => VoteReqOk(nodes, src, vote)
       case VoteRep(src, dst, callTerm, voted) =>
         voted.granted ==> (src, callTerm) in h.ballots && h.ballots[(src, callTerm)].cand == dst
       case AppendReq(_, _, _, _, _) => AppendReqOk(h, m)
       case AppendRep(_, _, _, _, _, _) => AppendRepOk(h, m)
  }

  ghost predicate StateOk(h: Hist, s: State) {
    && h.servers == s.nodes.Keys
    && HistOk(h)
    && (forall i {:trigger NodeOk(h, i, s.nodes[i])} | i in s.nodes :: NodeOk(h, i, s.nodes[i]))
    && (forall m {:trigger MessageOk(h, s.nodes, m)} | m in s.net :: MessageOk(h, s.nodes, m))
  }

  // ----- a step of one node leaves the others sound -----

  /** The history changed only by what node i did. */
  ghost predicate OnlyBy(h: Hist, h': Hist, i: nat) {
    && (forall b <- h'.ballots :: b in h.ballots || b.0 == i)
    && (forall a <- h'.acks :: a.0 == i || (a in h.acks && h'.acks[a] == h.acks[a]))
    && (forall t <- h.logs ::
          t in h'.logs && (h'.logs[t] == h.logs[t] || (t in h.elections && h.elections[t].leader == i)))
    && (forall t <- h'.elections :: t in h.elections || h'.elections[t].leader == i)
  }

  /** Terms only rise, and a candidate keeps its log as long as it is candidate in one term. */
  predicate Moves(c: Core, c': Core) {
    && c.term <= c'.term
    && (c'.role == Candidate && c'.term == c.term ==> c.role == Candidate && c'.log == c.log)
  }

  lemma OtherNodeStays(h: Hist, h': Hist, i: nat, k: nat, c: Core)
    requires HistOk(h) && Extends(h, h') && OnlyBy(h, h', i) && k != i
    requires NodeOk(h, k, c)
    requires forall v, u | (v, u) in h'.ballots && (v, u) !in h.ballots :: VoteFits(h', k, c, v, u)
    ensures NodeOk(h', k, c)
  {
    FollowsStays(h, h', c.log);
    CommittedStays(h, h', c.term, c.log[..c.commit]);
    assert SameAcks(h, h', k, c.term + 1);
    AcksKeptStays(h, h', k, c.log, c.term, c.term + 1);
    hide HistOk, Follows, Committed, AcksKept, KvStore.Replay;
    forall u: nat ensures BallotFits(h', k, c, u) { assert BallotFits(h, k, c, u); }
    forall v, u ensures VoteFits(h', k, c, v, u) { assert VoteFits(h, k, c, v, u); }
    if c.role == Leader {
      forall p ensures MatchFits(h', c, p) { assert MatchFits(h, c, p); }
    }
  }

  lemma MessageStays(h: Hist, h': Hist, s: State, i: nat, c': Core, m: Message)
    requires StateOk(h, s) && Extends(h, h') && i in s.nodes && m in s.net
    requires Moves(s.nodes[i], c')
    ensures MessageOk(h', s.nodes[i := c'], m)
  {
    assert MessageOk(h, s.nodes, m);
    if m.AppendReq? {
      var r := m.append;
      assert LogGrows(r.term, h.logs[r.term], h'.logs[r.term]);
      assert h'.logs[r.term][..r.leaderCommit] == h.logs[r.term][..r.leaderCommit];
      CommittedStays(h, h', r.term, h.logs[r.term][..r.leaderCommit]);
    }
  }

  /** Putting one step together: the node that moved, its history and what it sent are sound. */
  lemma Assemble(h: Hist, h': Hist, s: State, i: nat, c': Core, sent: set<Message>)
    requires StateOk(h, s) && i in s.nodes
    requires HistOk(h') && Extends(h, h') && OnlyBy(h, h', i)
    requires Moves(s.nodes[i], c') && NodeOk(h', i, c')
    requires forall k, u | (i, u) in h'.ballots && (i, u) !in h.ballots && k in s.nodes && k != i ::
               VoteFits(h', k, s.nodes[k], i, u)
    requires forall m <- sent :: MessageOk(h', s.nodes[i := c'], m)
    ensures StateOk(h', Update(s, i, c', sent))
  {
    var s' := Update(s, i, c', sent);
    forall k | k in s'.nodes ensures NodeOk(h', k, s'.nodes[k]) {
      if k != i {
        assert NodeOk(h, k, s.nodes[k]);
        OtherNodeStays(h, h', i, k, s.nodes[k]);
      }
    }
    forall m | m in s'.net ensures MessageOk(h', s'.nodes, m) {
      if m in s.net { MessageStays(h, h', s, i, c', m); }
    }
  }
}
