/** The four ways the history of a cluster grows, and why each keeps it sound. */
module HistorySteps {
  import opened Types
  import opened CoreSteps
  import opened History

  /** A leader's log only gains entries of its own term; nothing else ever changes or goes away. */
  ghost predicate LogGrows(t: nat, log: Log, log': Log) {
    log <= log' && forall k | |log| <= k < |log'| :: log'[k].term == t
  }

  ghost predicate Extends(h: Hist, h': Hist) {
    && h'.servers == h.servers
    && (forall t <- h.logs :: t in h'.logs && LogGrows(t, h.logs[t], h'.logs[t]))
    && (forall t <- h.elections :: t in h'.elections && h'.elections[t] == h.elections[t])
    && (forall b <- h.ballots :: b in h'.ballots && h'.ballots[b] == h.ballots[b])
    && (forall a <- h.acks :: a in h'.acks && h'.acks[a] >= h.acks[a])
  }

  lemma FollowsStays(h: Hist, h': Hist, log: Log)
    requires Extends(h, h') && Follows(h.logs, log)
    ensures Follows(h'.logs, log)
  {
    forall k: nat | k < |log| ensures Rooted(h'.logs, log, k) {
      assert Rooted(h.logs, log, k);
      var t := log[k].term;
      assert h'.logs[t][..k + 1] == h.logs[t][..k + 1];
    }
  }

  /** A leader that lacks an older prefix never gets it, since it only appends its own term. */
  lemma LostStays(h: Hist, h': Hist, t: nat, j: nat, bound: int)
    requires HistOk(h) && Extends(h, h')
    requires t in h.logs && j <= |h.logs[t]| && Lost(h, t, j, bound)
    ensures Lost(h', t, j, bound)
  {
    var w :| w in h.logs && t < w <= bound && !(h.logs[t][..j] <= h.logs[w]);
    assert LogOk(h, t);
    var p := h.logs[t][..j];
    assert p == h'.logs[t][..j];
    LackingStays(p, t, w, h.logs[w], h'.logs[w]);
  }

  lemma LackingStays(p: Log, t: nat, w: nat, log: Log, log': Log)
    requires TermsUpTo(p, t) && t < w && !(p <= log) && LogGrows(w, log, log')
    ensures !(p <= log')
  {
    if |p| <= |log| {
      assert log'[..|p|] == log[..|p|];
    } else if |p| <= |log'| {
      assert log'[|p| - 1].term == w && p[|p| - 1].term <= t;
    }
  }

  lemma KeptStays(h: Hist, h': Hist, log: Log, bound: int, t: nat, j: nat)
    requires HistOk(h) && Extends(h, h')
    requires t in h.logs && j <= |h.logs[t]| && Kept(h, log, bound, t, j)
    ensures Kept(h', log, bound, t, j)
  {
    assert h'.logs[t][..j] == h.logs[t][..j];
    if Lost(h, t, j, bound) { LostStays(h, h', t, j, bound); }
  }

  ghost predicate SameAcks(h: Hist, h': Hist, v: nat, before: nat) {
    forall t | t < before :: ((v, t) in h'.acks <==> (v, t) in h.acks) &&
                             ((v, t) in h.acks ==> h'.acks[(v, t)] == h.acks[(v, t)])
  }

  lemma AcksKeptStays(h: Hist, h': Hist, v: nat, log: Log, bound: int, before: nat)
    requires HistOk(h) && Extends(h, h') && SameAcks(h, h', v, before)
    requires AcksKept(h, v, log, bound, before)
    ensures AcksKept(h', v, log, bound, before)
  {
    forall t: nat, j: nat | (v, t) in h'.acks && t < before && t in h'.logs && j <= h'.acks[(v, t)] && j <= |h'.logs[t]|
      ensures Kept(h', log, bound, t, j)
    {
      assert AckOk(h, v, t);
      KeptStays(h, h', log, bound, t, j);
    }
  }

  lemma CommittedStays(h: Hist, h': Hist, t: nat, p: Log)
    requires Extends(h, h') && Committed(h, t, p)
    ensures Committed(h', t, p)
  {
    if p != [] {
      var s: nat, j: nat :| s <= t && Chosen(h, s, j) && p <= h.logs[s][..j];
      assert h'.logs[s][..j] == h.logs[s][..j];
      var q :| Quorum(h, q) && AckedBy(h, q, s, j);
      assert Quorum(h', q) && AckedBy(h', q, s, j);
      assert Chosen(h', s, j);
    }
  }

  /** A ballot stays sound when only acknowledgements by v in a term no ballot of v passes change. */
  lemma BallotStays(h: Hist, h': Hist, w: nat, u: nat, v: nat, t: nat)
    requires HistOk(h) && Extends(h, h') && (w, u) in h.ballots
    requires forall x, y | (x, y) in h'.acks && (x, y) != (v, t) ::
               (x, y) in h.acks && h'.acks[(x, y)] == h.acks[(x, y)]
    requires h'.acks == h.acks || forall y: nat | y > t :: (v, y) !in h.ballots
    ensures BallotOk(h', w, u)
  {
    var b := h.ballots[(w, u)];
    assert BallotOk(h, w, u);
    FollowsStays(h, h', b.log);
    if Counts(h', w, u) {
      assert Counts(h, w, u);
      assert SameAcks(h, h', w, u);
      AcksKeptStays(h, h', w, b.log, u - 1, u);
    }
  }

  /** An election already won stays sound. */
  lemma ElectionStays(h: Hist, h': Hist, u: nat)
    requires HistOk(h) && Extends(h, h') && u in h.elections && u in h'.logs
    ensures ElectionOk(h', u)
  {
    assert ElectionOk(h, u);
    assert Quorum(h', h.elections[u].quorum);
    forall w <- h'.elections[u].quorum ensures VoteOk(h', u, w) {
      assert VoteOk(h, u, w);
    }
  }

  // ----- a vote is cast -----

  function AddBallot(h: Hist, v: nat, t: nat, b: Ballot): Hist {
    if (v, t) in h.ballots then h else h.(ballots := h.ballots[(v, t) := b])
  }

  /** A first ballot either may still count, with nothing lost yet, or comes after the election. */
  lemma NewBallotOk(h: Hist, h': Hist, v: nat, t: nat, b: Ballot)
    requires HistOk(h) && (v, t) !in h.ballots && h' == h.(ballots := h.ballots[(v, t) := b])
    requires Follows(h.logs, b.log) && UpToDate(b.lastTerm, b.lastIndex, LastTermOf(b.log), |b.log|)
    requires t !in h.elections ==> AcksKept(h, v, b.log, t - 1, t)
    ensures BallotOk(h', v, t)
  {
    if t in h.elections {
      assert ElectionOk(h, t);
      assert v in h.elections[t].quorum ==> VoteOk(h, t, v);
    } else {
      AcksKeptStays(h, h', v, b.log, t - 1, t);
    }
  }

  lemma AddBallotOk(h: Hist, v: nat, t: nat, b: Ballot)
    requires HistOk(h)
    requires Follows(h.logs, b.log) && UpToDate(b.lastTerm, b.lastIndex, LastTermOf(b.log), |b.log|)
    requires t !in h.elections ==> AcksKept(h, v, b.log, t - 1, t)
    ensures HistOk(AddBallot(h, v, t, b)) && Extends(h, AddBallot(h, v, t, b))
  {
    var h' := AddBallot(h, v, t, b);
    forall u <- h'.logs ensures LogOk(h', u) {
      assert LogOk(h, u);
    }
    forall u <- h'.elections ensures ElectionOk(h', u) {
      ElectionStays(h, h', u);
    }
    forall w, u | (w, u) in h'.ballots ensures BallotOk(h', w, u) {
      if (w, u) in h.ballots {
        BallotStays(h, h', w, u, v, t);
      } else {
        NewBallotOk(h, h', v, t, b);
      }
    }
    forall w, u ensures AckOk(h', w, u) {
      assert AckOk(h, w, u);
    }
  }

  // ----- a leader is elected -----

  function Elect(h: Hist, t: nat, leader: nat, quorum: set<nat>, log: Log, first: Entry): Hist {
    h.(logs := h.logs[t := log + [first]],
    elections := h.elections[t := Election(leader, quorum, log)],
    acks := h.acks[(leader, t) := |log| + 1])
  }

  /** The node may win: its log and term are those its voters saw, and it has cast no later vote. */
  ghost predicate MayWin(h: Hist, t: nat, leader: nat, quorum: set<nat>, log: Log, first: Entry) {
    && t !in h.logs && t !in h.elections && t >= 1
    && Follows(h.logs, log) && TermsUpTo(log, t - 1)
    && first.term == t && first.index == |log| + 1
    && Quorum(h, quorum) && leader in quorum
    && (forall v <- quorum :: (v, t) in h.ballots && h.ballots[(v, t)].cand == leader
                              && h.ballots[(v, t)].lastTerm == LastTermOf(log)
                              && h.ballots[(v, t)].lastIndex == |log|)
    && (forall u: nat | u > t :: (leader, u) !in h.ballots)
  }

  lemma WonLogOk(h: Hist, t: nat, leader: nat, quorum: set<nat>, log: Log, first: Entry)
    requires HistOk(h) && MayWin(h, t, leader, quorum, log, first)
    ensures Extends(h, Elect(h, t, leader, quorum, log, first))
    ensures LogOk(Elect(h, t, leader, quorum, log, first), t)
  {
    var h' := Elect(h, t, leader, quorum, log, first);
    assert AckOk(h, leader, t);
    FollowsStays(h, h', log);
    FollowsSnoc(h'.logs, log, first);
  }

  lemma WonElectionOk(h: Hist, t: nat, leader: nat, quorum: set<nat>, log: Log, first: Entry)
    requires HistOk(h) && MayWin(h, t, leader, quorum, log, first)
    ensures ElectionOk(Elect(h, t, leader, quorum, log, first), t)
  {
    var h' := Elect(h, t, leader, quorum, log, first);
    forall v <- quorum ensures VoteOk(h', t, v) {
      assert BallotOk(h, v, t);
    }
    assert Quorum(h', quorum);
  }

  lemma ElectOk(h: Hist, t: nat, leader: nat, quorum: set<nat>, log: Log, first: Entry)
    requires HistOk(h) && MayWin(h, t, leader, quorum, log, first)
    ensures HistOk(Elect(h, t, leader, quorum, log, first))
    ensures Extends(h, Elect(h, t, leader, quorum, log, first))
  {
    var h' := Elect(h, t, leader, quorum, log, first);
    WonLogOk(h, t, leader, quorum, log, first);
    WonElectionOk(h, t, leader, quorum, log, first);
    hide Follows, Quorum, AcksKept, Counts;
    forall u | u in h'.logs && u != t ensures LogOk(h', u) {
      assert LogOk(h, u);
      FollowsStays(h, h', h.logs[u]);
    }
    forall u | u in h'.elections && u != t ensures ElectionOk(h', u) {
      ElectionStays(h, h', u);
    }
    forall w, u | (w, u) in h'.ballots ensures BallotOk(h', w, u) {
      BallotStays(h, h', w, u, leader, t);
    }
    forall w, u ensures AckOk(h', w, u) {
      assert AckOk(h, w, u);
    }
  }

  lemma FollowsSnoc(logs: map<nat, Log>, log: Log, e: Entry)
    requires Follows(logs, log) && e.term in logs && logs[e.term] == log + [e] && e.index == |log| + 1
    ensures Follows(logs, log + [e])
  {
    forall k: nat | k <= |log| ensures Rooted(logs, log + [e], k) {
      if k < |log| {
        assert Rooted(logs, log, k);
        assert (log + [e])[..k + 1] == log[..k + 1];
      }
    }
  }

  // ----- a leader appends -----

  function Grow(h: Hist, t: nat, e: Entry): Hist
    requires t in h.logs && t in h.elections
  {
    h.(logs := h.logs[t := h.logs[t] + [e]],
    acks := h.acks[(h.elections[t].leader, t) := |h.logs[t]| + 1])
  }

  lemma GrowOk(h: Hist, t: nat, e: Entry)
    requires HistOk(h) && t in h.logs && t in h.elections
    requires e.term == t && e.index == |h.logs[t]| + 1
    requires forall u: nat | u > t :: (h.elections[t].leader, u) !in h.ballots
    ensures HistOk(Grow(h, t, e)) && Extends(h, Grow(h, t, e))
  {
    var h' := Grow(h, t, e);
    var leader := h.elections[t].leader;
    assert AckOk(h, leader, t);
    assert Extends(h, h');
    forall u <- h'.logs ensures LogOk(h', u) {
      assert LogOk(h, u);
      FollowsStays(h, h', h.logs[u]);
      if u == t { FollowsSnoc(h'.logs, h.logs[t], e); }
    }
    forall u <- h'.elections ensures ElectionOk(h', u) {
      ElectionStays(h, h', u);
    }
    forall w, u | (w, u) in h'.ballots ensures BallotOk(h', w, u) {
      BallotStays(h, h', w, u, leader, t);
    }
    forall w, u ensures AckOk(h', w, u) {
      assert AckOk(h, w, u);
    }
  }

  // ----- a follower acknowledges -----

  function Acknowledge(h: Hist, v: nat, t: nat, j: nat): Hist {
    if (v, t) in h.acks && h.acks[(v, t)] >= j then h else h.(acks := h.acks[(v, t) := j])
  }

  lemma AcknowledgeOk(h: Hist, v: nat, t: nat, j: nat)
    requires HistOk(h) && t in h.logs && j <= |h.logs[t]|
    requires forall u: nat | u > t :: (v, u) !in h.ballots
    ensures HistOk(Acknowledge(h, v, t, j)) && Extends(h, Acknowledge(h, v, t, j))
  {
    var h' := Acknowledge(h, v, t, j);
    assert Extends(h, h');
    hide Extends, Follows, Quorum, AcksKept, Counts;
    forall u <- h'.logs ensures LogOk(h', u) {
      assert LogOk(h, u);
    }
    forall u <- h'.elections ensures ElectionOk(h', u) {
      ElectionStays(h, h', u);
    }
    forall w, u | (w, u) in h'.ballots ensures BallotOk(h', w, u) {
      BallotStays(h, h', w, u, v, t);
    }
    forall w, u ensures AckOk(h', w, u) {
      assert AckOk(h, w, u);
    }
  }
}
