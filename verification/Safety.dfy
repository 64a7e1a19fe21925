/** Safety over whole runs of a cluster, stated without the history: sections 5.2 to 5.4 of the
    extended Raft paper for the handlers of src/core/raft_core.rs. */
module Safety {
  import opened Types
  import opened CoreSteps
  import opened History
  import opened HistorySteps
  import opened Cluster
  import opened Invariant
  import opened VoteSteps
  import opened AppendSteps
  import KvStore

  // ----- the invariant holds along every run -----

  lemma InitOk(s: State) returns (h: Hist)
    requires Init(s)
    ensures StateOk(h, s)
  {
    h := Hist(s.nodes.Keys, map[], map[], map[], map[]);
    forall i | i in s.nodes ensures NodeOk(h, i, s.nodes[i]) {
      assert s.nodes[i].log[..0] == [];
    }
  }

  lemma StepOk(h: Hist, s: State, step: Step) returns (h': Hist)
    requires StateOk(h, s) && Enabled(s, step)
    ensures StateOk(h', Perform(LastNewEntry, s, step)) && Extends(h, h')
  {
    h' := h;
    match step
    case Timeout(i) => h' := TimeoutOk(h, s, i);
    case RequestVotes(i) => RequestVotesOk(h, s, i);
    case ReceiveVoteReq(i, m) => h' := ReceiveVoteReqOk(h, s, i, m);
    case ReceiveVoteRep(i, m) => h' := ReceiveVoteRepOk(h, s, i, m);
    case Submit(i, command) => h' := SubmitOk(h, s, i, command);
    case Replicate(i, index) => ReplicateOk(h, s, i);
    case Heartbeat(i) => HeartbeatOk(h, s, i);
    case ConfirmLeadership(i, readId) => ProbesOk(h, s, i, readId);
    case ReceiveAppendReq(i, m) => h' := ReceiveAppendReqOk(h, s, i, m);
    case ReceiveAppendRep(i, m) => ReceiveAppendRepOk(h, s, i, m);
    case Crash(i) => CrashOk(h, s, i);
    case SnapshotRefused(i, term) => SnapshotRefusedOk(h, s, i, term);
    case CrashInTermUpdate(i, term, vote) => CrashInTermUpdateOk(h, s, i, term, vote);
    case CrashInAppend(i, m, stored, cut) => CrashInAppendOk(h, s, i, m, stored, cut);
  }

  /** What the final history still says about a node as it was at any earlier time. */
  ghost predicate Explains(h: Hist, i: nat, c: Core) {
    && Follows(h.logs, c.log)
    && CommitFits(h, c)
    && (c.role == Leader ==> c.term in h.elections && h.elections[c.term].leader == i
                             && c.term in h.logs && c.log <= h.logs[c.term]
                             && |c.log| > |h.elections[c.term].log|)
  }

  lemma ExplainsStays(h: Hist, h': Hist, i: nat, c: Core)
    requires Extends(h, h') && Explains(h, i, c)
    ensures Explains(h', i, c)
  {
    FollowsStays(h, h', c.log);
    CommittedStays(h, h', c.term, c.log[..c.commit]);
  }

  ghost predicate ExplainsAll(h: Hist, s: State) {
    forall i {:trigger Explains(h, i, s.nodes[i])} | i in s.nodes :: Explains(h, i, s.nodes[i])
  }

  ghost predicate ExplainsRun(h: Hist, run: seq<State>) {
    forall a {:trigger ExplainsAll(h, run[a])} | 0 <= a < |run| :: ExplainsAll(h, run[a])
  }

  lemma StateExplained(h: Hist, s: State)
    requires StateOk(h, s)
    ensures ExplainsAll(h, s)
  {
    forall i | i in s.nodes ensures Explains(h, i, s.nodes[i]) {
      assert NodeOk(h, i, s.nodes[i]);
      if s.nodes[i].role == Leader { assert LogOk(h, s.nodes[i].term); }
    }
  }

  lemma RunPrefix(rule: CommitRule, run: seq<State>, n: nat)
    requires Run(rule, run) && 1 <= n <= |run|
    ensures Run(rule, run[..n])
  {
    forall k: nat ensures StepAt(rule, run[..n], k) { assert StepAt(rule, run, k); }
  }

  lemma RunSnoc(rule: CommitRule, run: seq<State>, s: State)
    requires Run(rule, run) && Next(rule, run[|run| - 1], s)
    ensures Run(rule, run + [s])
  {
    forall k: nat ensures StepAt(rule, run + [s], k) { assert StepAt(rule, run, k); }
  }

  /** One history explains every state of a run. */
  lemma {:induction false} RunHistory(run: seq<State>) returns (h: Hist)
    requires Run(LastNewEntry, run)
    ensures StateOk(h, run[|run| - 1]) && ExplainsRun(h, run)
    decreases |run|
  {
    var n := |run| - 1;
    if n == 0 {
      h := InitOk(run[0]);
    } else {
      RunPrefix(LastNewEntry, run, n);
      var h0 := RunHistory(run[..n]);
      assert StepAt(LastNewEntry, run, n);
      var step :| Enabled(run[n - 1], step) && run[n] == Perform(LastNewEntry, run[n - 1], step);
      h := StepOk(h0, run[n - 1], step);
      hide StateOk, Extends, ExplainsAll, Enabled, Perform;
      forall a | 0 <= a < n ensures ExplainsAll(h, run[a]) {
        assert ExplainsAll(h0, run[..n][a]);
        ExplainsAllStays(h0, h, run[a]);
      }
    }
    StateExplained(h, run[n]);
  }

  lemma ExplainsAllStays(h: Hist, h': Hist, s: State)
    requires Extends(h, h') && ExplainsAll(h, s)
    ensures ExplainsAll(h', s)
  {
    hide Extends;
    forall i | i in s.nodes ensures Explains(h', i, s.nodes[i]) {
      assert Explains(h, i, s.nodes[i]);
      ExplainsStays(h, h', i, s.nodes[i]);
    }
  }

  predicate At(run: seq<State>, a: nat, i: nat) { a < |run| && i in run[a].nodes }

  lemma NodeExplained(h: Hist, run: seq<State>, a: nat, i: nat)
    requires ExplainsRun(h, run) && At(run, a, i)
    ensures Explains(h, i, run[a].nodes[i])
  {
    assert ExplainsAll(h, run[a]);
  }

  // ----- the safety theorems -----

  /** State machine safety (section 5.4.3): whatever two nodes, or one node at two times and with
      crashes in between, have applied, they have applied the same entries in the same order. */
  lemma StateMachineSafety(run: seq<State>, a: nat, i: nat, b: nat, j: nat)
    requires Run(LastNewEntry, run) && At(run, a, i) && At(run, b, j)
    ensures var c, d := run[a].nodes[i], run[b].nodes[j];
            c.applied <= |c.log| && d.applied <= |d.log|
            && (c.log[..c.applied] <= d.log[..d.applied] || d.log[..d.applied] <= c.log[..c.applied])
  {
    var h := RunHistory(run);
    NodeExplained(h, run, a, i);
    NodeExplained(h, run, b, j);
    var c, d := run[a].nodes[i], run[b].nodes[j];
    CommittedAgree(h, c.term, c.log[..c.commit], d.term, d.log[..d.commit]);
  }

  /** The state machine is exactly the applied log replayed, so nodes that applied equally much
      hold equal data. */
  lemma ReplicasAgree(run: seq<State>, a: nat, i: nat, b: nat, j: nat)
    requires Run(LastNewEntry, run) && At(run, a, i) && At(run, b, j)
    ensures var c := run[a].nodes[i];
            && c.applied == c.commit <= |c.log|
            && c.data == KvStore.Replay(c.log[..c.applied])
    ensures run[a].nodes[i].applied == run[b].nodes[j].applied ==> run[a].nodes[i].data == run[b].nodes[j].data
  {
    var h := RunHistory(run);
    NodeExplained(h, run, a, i);
    NodeExplained(h, run, b, j);
    StateMachineSafety(run, a, i, b, j);
    var c, d := run[a].nodes[i], run[b].nodes[j];
    if c.applied == d.applied { assert c.log[..c.applied] == d.log[..d.applied]; }
  }

  /** Election safety (section 5.2): one leader per term, crashes and late votes included. */
  lemma ElectionSafety(run: seq<State>, a: nat, i: nat, b: nat, j: nat)
    requires Run(LastNewEntry, run) && At(run, a, i) && At(run, b, j)
    requires run[a].nodes[i].role == Leader && run[b].nodes[j].role == Leader
    requires run[a].nodes[i].term == run[b].nodes[j].term
    ensures i == j
  {
    var h := RunHistory(run);
    NodeExplained(h, run, a, i);
    NodeExplained(h, run, b, j);
  }

  /** Log Matching (section 5.3), between any two nodes at any two times. */
  lemma LogsMatch(run: seq<State>, a: nat, i: nat, b: nat, j: nat, k: nat)
    requires Run(LastNewEntry, run) && At(run, a, i) && At(run, b, j)
    requires k < |run[a].nodes[i].log| && k < |run[b].nodes[j].log|
    requires run[a].nodes[i].log[k].term == run[b].nodes[j].log[k].term
    ensures run[a].nodes[i].log[..k + 1] == run[b].nodes[j].log[..k + 1]
  {
    var h := RunHistory(run);
    NodeExplained(h, run, a, i);
    NodeExplained(h, run, b, j);
    LogMatching(h.logs, run[a].nodes[i].log, run[b].nodes[j].log, k);
  }

  /** Every log is numbered from 1 without gaps and its terms never fall. */
  lemma LogsWellFormed(run: seq<State>, a: nat, i: nat)
    requires Run(LastNewEntry, run) && At(run, a, i)
    ensures Contiguous(0, run[a].nodes[i].log) && Rising(run[a].nodes[i].log)
  {
    var h := RunHistory(run);
    NodeExplained(h, run, a, i);
    var log := run[a].nodes[i].log;
    forall k | 0 <= k < |log| ensures log[k].index == k + 1 { assert Rooted(h.logs, log, k); }
    forall j, k | 0 <= j <= k < |log| ensures log[j].term <= log[k].term { TermsMonotone(h, log, j, k); }
  }

  /** Leader completeness (section 5.4): what any node had committed is in the log of every leader
      of a later term at any time, and of a leader of the same term from then on. */
  lemma LeadersHoldCommitted(run: seq<State>, a: nat, i: nat, b: nat, j: nat)
    requires Run(LastNewEntry, run) && At(run, a, i) && At(run, b, j)
    requires run[b].nodes[j].role == Leader
    requires run[a].nodes[i].term < run[b].nodes[j].term || (run[a].nodes[i].term == run[b].nodes[j].term && a <= b)
    ensures run[a].nodes[i].commit <= |run[a].nodes[i].log|
    ensures run[a].nodes[i].log[..run[a].nodes[i].commit] <= run[b].nodes[j].log
  {
    var c, d := run[a].nodes[i], run[b].nodes[j];
    if c.term < d.term {
      var h := RunHistory(run);
      NodeExplained(h, run, a, i);
      NodeExplained(h, run, b, j);
      CommittedInLeader(h, c.term, c.log[..c.commit], d.term);
      CommittedBelowTerm(h, c.term, c.log[..c.commit], d.term, d.log);
    } else {
      RunPrefix(LastNewEntry, run, b + 1);
      var h := RunHistory(run[..b + 1]);
      NodeExplained(h, run[..b + 1], a, i);
      assert NodeOk(h, j, d);
      CommittedInLeader(h, c.term, c.log[..c.commit], d.term);
    }
  }

  /** A leader's log, at whatever time in its term, already starts with all that was committed in
      earlier terms, since it begins with its election log and its no-op. */
  lemma CommittedBelowTerm(h: Hist, t: nat, p: Log, u: nat, log: Log)
    requires HistOk(h) && Committed(h, t, p) && t < u && u in h.logs && p <= h.logs[u]
    requires log <= h.logs[u] && |log| > |h.elections[u].log|
    ensures p <= log
  {
    if p != [] {
      var s: nat, j: nat :| s <= t && Chosen(h, s, j) && p <= h.logs[s][..j];
      assert LogOk(h, s) && LogOk(h, u);
      assert p[|p| - 1] == h.logs[s][|p| - 1] == h.logs[u][|p| - 1];
      assert |p| <= |h.elections[u].log|;
      assert log == h.logs[u][..|log|] && p == h.logs[u][..|p|];
    }
  }

  /** The leader's belief about a peer is true while the peer is in the leader's term: the peer's log
      agrees with the leader's up to the recorded match index. */
  lemma MatchIndexIsTrue(run: seq<State>, i: nat, p: nat)
    requires Run(LastNewEntry, run) && At(run, |run| - 1, i) && At(run, |run| - 1, p)
    requires var s := run[|run| - 1]; s.nodes[i].role == Leader && s.nodes[p].term == s.nodes[i].term
    ensures var c, d := run[|run| - 1].nodes[i], run[|run| - 1].nodes[p];
            var k := Lookup(c.acked, p, 0);
            k <= |c.log| && k <= |d.log| && c.log[..k] == d.log[..k]
  {
    var h := RunHistory(run);
    var c, d := run[|run| - 1].nodes[i], run[|run| - 1].nodes[p];
    assert NodeOk(h, i, c) && NodeOk(h, p, d);
    var k := Lookup(c.acked, p, 0);
    if k > 0 {
      assert MatchFits(h, c, p) && AckOk(h, p, c.term);
      assert Kept(h, d.log, d.term, c.term, k);
      assert h.logs[c.term][..k] <= d.log;
    }
  }
}
