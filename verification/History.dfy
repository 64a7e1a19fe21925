/** What happened in a cluster so far, kept only for reasoning: the log of every elected leader,
    who voted for whom with which log, and how far each node acknowledged each leader.
    Leader completeness and the agreement of committed prefixes follow from facts about this
    history alone (sections 5.4.2 and 5.4.3 of the extended Raft paper). */
module History {
  import opened Types
  import opened Collections
  import opened CoreSteps

  /** One vote: for whom, with what log at hand, and the log position the candidate claimed. */
  datatype Ballot = Ballot(cand: nat, log: Log, lastTerm: nat, lastIndex: nat)

  datatype Election = Election(leader: nat, quorum: set<nat>, log: Log)

  /** `logs[t]` is the leader's log of term t; `acks[(v, t)]` how much of it v has stored. */
  datatype Hist = Hist(
    servers: set<nat>,
    logs: map<nat, Log>,
    elections: map<nat, Election>,
    ballots: map<(nat, nat), Ballot>,
    acks: map<(nat, nat), nat>)

  // ----- logs follow the leaders' logs -----

  ghost predicate Rooted(logs: map<nat, Log>, log: Log, k: nat)
    requires k < |log|
  {
    && log[k].index == k + 1
    && log[k].term in logs
    && k < |logs[log[k].term]|
    && log[..k + 1] == logs[log[k].term][..k + 1]
  }

  /** Every entry, with all entries before it, is in its leader's log at the same place. */
  ghost predicate Follows(logs: map<nat, Log>, log: Log) {
    forall k: nat {:trigger Rooted(logs, log, k)} | k < |log| :: Rooted(logs, log, k)
  }

  ghost predicate TermsUpTo(log: Log, t: nat) { forall k | 0 <= k < |log| :: log[k].term <= t }

  function LastTermOf(log: Log): nat { if log == [] then 0 else log[|log| - 1].term }

  /** Log Matching (section 5.3): same term at the same index, same log up to there. */
  lemma LogMatching(logs: map<nat, Log>, a: Log, b: Log, k: nat)
    requires Follows(logs, a) && Follows(logs, b)
    requires k < |a| && k < |b| && a[k].term == b[k].term
    ensures a[..k + 1] == b[..k + 1]
  {
    assert Rooted(logs, a, k) && Rooted(logs, b, k);
  }

  lemma FollowsPrefix(logs: map<nat, Log>, log: Log, n: nat)
    requires Follows(logs, log) && n <= |log|
    ensures Follows(logs, log[..n])
  {
    forall k: nat | k < n ensures Rooted(logs, log[..n], k) {
      assert Rooted(logs, log, k);
      assert log[..n][..k + 1] == log[..k + 1];
    }
  }

  // ----- a quorum is a majority of the servers -----

  ghost predicate Quorum(h: Hist, q: set<nat>) { q <= h.servers && 2 * |q| > |h.servers| }

  lemma QuorumsMeet(h: Hist, a: set<nat>, b: set<nat>) returns (v: nat)
    requires Quorum(h, a) && Quorum(h, b)
    ensures v in a && v in b
  {
    if a * b == {} {
      assert |a + b| == |a| + |b|;
      SubsetSize(a + b, h.servers);
      assert false;
    }
    v :| v in a * b;
  }

  // ----- acknowledged prefixes are kept, or some later leader lacks them -----

  /** Some leader elected after t and no later than `bound` lacks the first j entries of logs[t]. */
  ghost predicate Lost(h: Hist, t: nat, j: nat, bound: int)
    requires t in h.logs && j <= |h.logs[t]|
  {
    exists w :: w in h.logs && t < w <= bound && !(h.logs[t][..j] <= h.logs[w])
  }

  ghost predicate Kept(h: Hist, log: Log, bound: int, t: nat, j: nat)
    requires t in h.logs && j <= |h.logs[t]|
  {
    h.logs[t][..j] <= log || Lost(h, t, j, bound)
  }

  ghost predicate AcksKept(h: Hist, v: nat, log: Log, bound: int, before: nat) {
    forall t: nat, j: nat {:trigger Kept(h, log, bound, t, j)} |
      (v, t) in h.acks && t < before && t in h.logs && j <= h.acks[(v, t)] && j <= |h.logs[t]| ::
      Kept(h, log, bound, t, j)
  }

  // ----- the history invariant -----

  ghost predicate LogOk(h: Hist, t: nat)
    requires t in h.logs
  {
    && t in h.elections
    && t >= 1
    && Follows(h.logs, h.logs[t])
    && TermsUpTo(h.logs[t], t)
    && var e := h.elections[t];
    && e.log < h.logs[t]
    && (forall k | 0 <= k < |e.log| :: e.log[k].term < t)
    && (forall k | |e.log| <= k < |h.logs[t]| :: h.logs[t][k].term == t)
  }

  ghost predicate VoteOk(h: Hist, t: nat, v: nat)
    requires t in h.elections
  {
    && (v, t) in h.ballots
    && h.ballots[(v, t)].cand == h.elections[t].leader
    && UpToDate(LastTermOf(h.elections[t].log), |h.elections[t].log|,
                LastTermOf(h.ballots[(v, t)].log), |h.ballots[(v, t)].log|)
  }

  ghost predicate ElectionOk(h: Hist, t: nat)
    requires t in h.elections
  {
    && t in h.logs
    && Quorum(h, h.elections[t].quorum)
    && h.elections[t].leader in h.elections[t].quorum
    && forall v {:trigger VoteOk(h, t, v)} | v in h.elections[t].quorum :: VoteOk(h, t, v)
  }

  /** A ballot that did or still may count towards a win in its term. */
  ghost predicate Counts(h: Hist, v: nat, t: nat) {
    t in h.elections ==> v in h.elections[t].quorum
  }

  ghost predicate BallotOk(h: Hist, v: nat, t: nat)
    requires (v, t) in h.ballots
  {
    var b := h.ballots[(v, t)];
    && Follows(h.logs, b.log)
    && UpToDate(b.lastTerm, b.lastIndex, LastTermOf(b.log), |b.log|)
    && (Counts(h, v, t) ==> AcksKept(h, v, b.log, t - 1, t))
  }

  ghost predicate AckOk(h: Hist, v: nat, t: nat) {
    (v, t) in h.acks ==> t in h.logs && h.acks[(v, t)] <= |h.logs[t]|
  }

  ghost predicate HistOk(h: Hist) {
    && h.logs.Keys == h.elections.Keys
    && (forall t {:trigger LogOk(h, t)} | t in h.logs :: LogOk(h, t))
    && (forall t {:trigger ElectionOk(h, t)} | t in h.elections :: ElectionOk(h, t))
    && (forall v, t {:trigger BallotOk(h, v, t)} | (v, t) in h.ballots :: BallotOk(h, v, t))
    && (forall v, t {:trigger AckOk(h, v, t)} :: AckOk(h, v, t))
  }

  lemma TermsMonotone(h: Hist, log: Log, j: nat, k: nat)
    requires HistOk(h) && Follows(h.logs, log) && j <= k < |log|
    ensures log[j].term <= log[k].term
  {
    var t := log[k].term;
    assert Rooted(h.logs, log, k);
    assert LogOk(h, t);
    assert log[j] == log[..k + 1][j] == h.logs[t][..k + 1][j] == h.logs[t][j];
  }

  // ----- chosen entries and leader completeness -----

  ghost predicate AckedBy(h: Hist, q: set<nat>, t: nat, j: nat) {
    forall v <- q :: (v, t) in h.acks && h.acks[(v, t)] >= j
  }

  /** Entry j of term t is stored by a majority that acknowledged the leader of term t, and it is
      an entry of that very term. */
  ghost predicate Chosen(h: Hist, t: nat, j: nat) {
    && t in h.logs
    && 1 <= j <= |h.logs[t]|
    && h.logs[t][j - 1].term == t
    && exists q :: Quorum(h, q) && AckedBy(h, q, t, j)
  }

  lemma LastTermAtLeast(h: Hist, log: Log, j: nat)
    requires HistOk(h) && Follows(h.logs, log) && 1 <= j <= |log|
    ensures LastTermOf(log) >= log[j - 1].term
  {
    TermsMonotone(h, log, j - 1, |log| - 1);
  }

  /** The candidate's log at its election is a prefix of the log of the leader it last heard of. */
  lemma CandidateLogOrigin(h: Hist, u: nat)
    requires HistOk(h) && u in h.logs && u in h.elections && h.elections[u].log != []
    ensures var c := h.elections[u].log; var s := LastTermOf(c);
                                         && s < u && s in h.logs && |c| <= |h.logs[s]| && c == h.logs[s][..|c|]
                                         && c <= h.logs[u]
  {
    assert LogOk(h, u);
    var c := h.elections[u].log;
    var n := |c| - 1;
    assert h.logs[u][n] == c[n];
    assert Rooted(h.logs, h.logs[u], n);
    assert c == h.logs[u][..n + 1];
  }

  /** A log of term s whose last entry is of term s reaches past any prefix of older terms. */
  lemma LongerThanOlder(log: Log, p: Log, n: nat, t: nat)
    requires p <= log && 1 <= n <= |log| && log[n - 1].term > t && TermsUpTo(p, t)
    ensures |p| < n && p <= log[..n]
  {
    assert forall k | 0 <= k < |p| :: log[k] == p[k];
  }

  /** A later candidate that wins has a log at least as up to date as a voter's that still holds
      the chosen prefix, so its own log holds it. */
  lemma CandidateHolds(h: Hist, t: nat, j: nat, u: nat, voterLog: Log)
    requires HistOk(h) && t in h.logs && u in h.logs && u in h.elections && t < u
    requires 1 <= j <= |h.logs[t]| && h.logs[t][j - 1].term == t
    requires Follows(h.logs, voterLog) && h.logs[t][..j] <= voterLog
    requires UpToDate(LastTermOf(h.elections[u].log), |h.elections[u].log|, LastTermOf(voterLog), |voterLog|)
    requires forall w | t < w < u && w in h.logs :: h.logs[t][..j] <= h.logs[w]
    ensures h.logs[t][..j] <= h.logs[u]
  {
    var c := h.elections[u].log;
    var p := h.logs[t][..j];
    assert LogOk(h, t);
    assert voterLog[j - 1] == p[j - 1];
    LastTermAtLeast(h, voterLog, j);
    var s := LastTermOf(c);
    assert s >= t >= 1;
    CandidateLogOrigin(h, u);
    if s > t {
      assert LogOk(h, s);
      LongerThanOlder(h.logs[s], p, |c|, t);
    } else {
      assert j <= |c|;
    }
  }

  /** Leader completeness: what is chosen in term t is in the log of every later leader. */
  lemma {:induction false} LeaderCompleteness(h: Hist, t: nat, j: nat, u: nat)
    requires HistOk(h) && Chosen(h, t, j) && u in h.logs && t <= u
    ensures h.logs[t][..j] <= h.logs[u]
    decreases u
  {
    if t < u {
      forall w | t < w < u && w in h.logs ensures h.logs[t][..j] <= h.logs[w] {
        LeaderCompleteness(h, t, j, w);
      }
      assert LogOk(h, u) && ElectionOk(h, u);
      var q :| Quorum(h, q) && AckedBy(h, q, t, j);
      var v := QuorumsMeet(h, q, h.elections[u].quorum);
      assert VoteOk(h, u, v) && BallotOk(h, v, u) && Counts(h, v, u);
      assert Kept(h, h.ballots[(v, u)].log, u - 1, t, j);
      CandidateHolds(h, t, j, u, h.ballots[(v, u)].log);
    }
  }

  /** Election safety: two majorities in one term name the same leader. */
  lemma OneLeaderPerTerm(h: Hist, t: nat, q: set<nat>, leader: nat)
    requires HistOk(h) && t in h.elections && Quorum(h, q)
    requires forall v <- q :: (v, t) in h.ballots && h.ballots[(v, t)].cand == leader
    ensures leader == h.elections[t].leader
  {
    assert ElectionOk(h, t);
    var v := QuorumsMeet(h, q, h.elections[t].quorum);
    assert VoteOk(h, t, v);
  }

  // ----- committed prefixes -----

  /** `p` is part of what was chosen in some term up to t. */
  ghost predicate Committed(h: Hist, t: nat, p: Log) {
    p == [] || exists s: nat, j: nat :: s <= t && Chosen(h, s, j) && p <= h.logs[s][..j]
  }

  lemma CommittedInLeader(h: Hist, t: nat, p: Log, u: nat)
    requires HistOk(h) && Committed(h, t, p) && t <= u && u in h.logs
    ensures p <= h.logs[u]
  {
    if p != [] {
      var s: nat, j: nat :| s <= t && Chosen(h, s, j) && p <= h.logs[s][..j];
      LeaderCompleteness(h, s, j, u);
    }
  }

  lemma PrefixesOfOne(p: Log, q: Log, log: Log)
    requires p <= log && q <= log
    ensures p <= q || q <= p
  {
    assert p == log[..|p|] && q == log[..|q|];
  }

  lemma ChosenAgree(h: Hist, s: nat, j: nat, s': nat, j': nat)
    requires HistOk(h) && Chosen(h, s, j) && Chosen(h, s', j') && s <= s'
    ensures h.logs[s][..j] <= h.logs[s'][..j'] || h.logs[s'][..j'] <= h.logs[s][..j]
  {
    LeaderCompleteness(h, s, j, s');
    PrefixesOfOne(h.logs[s][..j], h.logs[s'][..j'], h.logs[s']);
  }

  /** Any two committed prefixes agree wherever both reach. */
  lemma CommittedAgree(h: Hist, t: nat, p: Log, u: nat, q: Log)
    requires HistOk(h) && Committed(h, t, p) && Committed(h, u, q)
    ensures p <= q || q <= p
  {
    if p != [] && q != [] {
      var s: nat, j: nat :| s <= t && Chosen(h, s, j) && p <= h.logs[s][..j];
      var s': nat, j': nat :| s' <= u && Chosen(h, s', j') && q <= h.logs[s'][..j'];
      var a, b := h.logs[s][..j], h.logs[s'][..j'];
      if s <= s' { ChosenAgree(h, s, j, s', j'); } else { ChosenAgree(h, s', j', s, j); }
      PrefixesOfOne(p, q, if a <= b then b else a);
    }
  }
}
