/** Linearizable reads (src/core/raft_server.rs:243-314, src/core/raft_node.rs:318-384): a read
    index confirmed by a majority covers every write acknowledged before the read began. */
module ReadIndex {
  import opened Types
  import opened CoreSteps
  import opened History
  import opened Cluster
  import opened Invariant
  import opened AppendSteps
  import opened Applying
  import opened Safety

  // ----- how one node moves in one step -----

  /** A node that leads after a step without entering a new term led before, or just won; while it leads,
      its commit index does not fall and, with snapshots off, its log only grows. */
  predicate LeadsOn(c: Core, c': Core) {
    c'.term == c.term && c'.role == Leader ==>
      c.role == Candidate || (c.role == Leader && c.commit <= c'.commit && (c.threshold == 0 ==> c.log <= c'.log))
  }

  lemma HandleReplyMoves(c: Core, m: Message)
    requires m.AppendRep?
    ensures Moves(c, HandleReply(c, m)) && LeadsOn(c, HandleReply(c, m))
  {
    var c1 := StepDown(c, m.appended.term);
    if m.probe.None? && c1.role == Leader {
      var c2 := RecordReply(c1, m.src, m.callIndex, m.appended);
      ApplyKeepsRest(c2.(commit := m.callIndex));
      ApplyUpToKeepsRest(c2.(commit := m.callIndex));
    }
  }

  lemma BatchMoves(c: Core, req: AppendArgs)
    ensures Moves(c, HandleAppendEntries(LastNewEntry, c, req).0)
    ensures LeadsOn(c, HandleAppendEntries(LastNewEntry, c, req).0)
  {
    AcceptTermRole(LastNewEntry, StepDown(c, req.term).(role := Follower), req);
    hide AcceptEntriesAt;
  }

  lemma StepMoves(s: State, step: Step)
    requires Enabled(s, step)
    ensures var s' := Perform(LastNewEntry, s, step);
            && s'.nodes.Keys == s.nodes.Keys
            && forall k <- s.nodes :: Moves(s.nodes[k], s'.nodes[k]) && LeadsOn(s.nodes[k], s'.nodes[k])
  {
    var c := s.nodes[step.node];
    hide HandleReply, HandleAppendEntriesAt;
    match step
    case ReceiveAppendReq(_, m) => BatchMoves(c, m.append);
    case ReceiveAppendRep(_, m) => HandleReplyMoves(c, m);
    case _ =>
  }

  lemma NextMoves(run: seq<State>, x: nat)
    requires Run(LastNewEntry, run) && x + 1 < |run|
    ensures run[x + 1].nodes.Keys == run[x].nodes.Keys
    ensures forall k <- run[x].nodes :: Moves(run[x].nodes[k], run[x + 1].nodes[k])
                                        && LeadsOn(run[x].nodes[k], run[x + 1].nodes[k])
  {
    assert StepAt(LastNewEntry, run, x + 1);
    var step :| Enabled(run[x], step) && run[x + 1] == Perform(LastNewEntry, run[x], step);
    StepMoves(run[x], step);
  }

  lemma {:induction false} TermsRise(run: seq<State>, a: nat, b: nat, i: nat)
    requires Run(LastNewEntry, run) && a <= b < |run| && i in run[a].nodes
    ensures i in run[b].nodes && run[a].nodes[i].term <= run[b].nodes[i].term
    decreases b
  {
    if a < b {
      TermsRise(run, a, b - 1, i);
      NextMoves(run, b - 1);
    }
  }

  /** While one node leads one term its commit index only grows; once it stops leading that term it
      never leads it again. */
  lemma {:induction false} LeaderCommitGrows(run: seq<State>, b: nat, a: nat, i: nat)
    requires Run(LastNewEntry, run) && b <= a < |run| && i in run[b].nodes
    requires run[b].nodes[i].role == Leader
    ensures i in run[a].nodes && run[b].nodes[i].term <= run[a].nodes[i].term
    ensures run[a].nodes[i].term == run[b].nodes[i].term ==>
              run[a].nodes[i].role != Candidate
              && (run[a].nodes[i].role == Leader ==> run[b].nodes[i].commit <= run[a].nodes[i].commit)
    decreases a
  {
    if b < a {
      LeaderCommitGrows(run, b, a - 1, i);
      NextMoves(run, a - 1);
    }
  }

  lemma SnapshotsOff(run: seq<State>, a: nat, i: nat)
    requires Run(LastNewEntry, run) && At(run, a, i)
    ensures run[a].nodes[i].threshold == 0 && run[a].nodes[i].snapIndex == 0
  {
    RunPrefix(LastNewEntry, run, a + 1);
    var h := RunHistory(run[..a + 1]);
    assert NodeOk(h, i, run[a].nodes[i]);
  }

  /** Leader Append-Only (section 5.3): while one node leads one term its log only grows. */
  lemma {:induction false} LeaderLogGrows(run: seq<State>, b: nat, a: nat, i: nat)
    requires Run(LastNewEntry, run) && b <= a && At(run, b, i) && At(run, a, i)
    requires run[b].nodes[i].role == Leader && run[a].nodes[i].role == Leader
    requires run[a].nodes[i].term == run[b].nodes[i].term
    ensures run[b].nodes[i].log <= run[a].nodes[i].log
    decreases a
  {
    if b < a {
      NextMoves(run, a - 1);
      LeaderCommitGrows(run, b, a - 1, i);
      SnapshotsOff(run, a - 1, i);
      LeaderLogGrows(run, b, a - 1, i);
    }
  }

  // ----- confirming leadership -----

  /** A peer's positive answer to a leadership probe of term t. */
  predicate Confirms(m: Message, leader: nat, t: nat) {
    m.AppendRep? && m.dst == leader && m.callTerm == t && m.probe.Some? && m.appended.success
  }

  lemma AnswerTerm(s: State, step: Step, m: Message)
    requires Enabled(s, step)
    requires m.AppendRep? && m.appended.success && m in Perform(LastNewEntry, s, step).net && m !in s.net
    ensures m.src in s.nodes && s.nodes[m.src].term <= m.callTerm
  {
  }

  /** A probe answered between times a and z was answered by a peer that, at a, had seen no term
      higher than the probe's. */
  lemma {:induction false} AnsweredSince(run: seq<State>, a: nat, z: nat, m: Message)
    requires Run(LastNewEntry, run) && a <= z < |run|
    requires m.AppendRep? && m.appended.success && m in run[z].net && m !in run[a].net
    ensures m.src in run[a].nodes && run[a].nodes[m.src].term <= m.callTerm
    decreases z
  {
    assert StepAt(LastNewEntry, run, z);
    NodesStay(run, a, z - 1);
    if m in run[z - 1].net {
      AnsweredSince(run, a, z - 1, m);
    } else {
      var step :| Enabled(run[z - 1], step) && run[z] == Perform(LastNewEntry, run[z - 1], step);
      AnswerTerm(run[z - 1], step, m);
      TermsRise(run, a, z - 1, m.src);
    }
  }

  lemma {:induction false} NodesStay(run: seq<State>, a: nat, b: nat)
    requires Run(LastNewEntry, run) && a <= b < |run|
    ensures run[a].nodes.Keys == run[b].nodes.Keys
    decreases b
  {
    if a < b {
      NodesStay(run, a, b - 1);
      NextMoves(run, b - 1);
    }
  }

  /** A read begun at time a by leader i and confirmed by time z: a majority, counting i itself,
      answered probes with positive replies that were not there yet when the read began. */
  ghost predicate ReadConfirmed(run: seq<State>, a: nat, z: nat, i: nat, confirmed: set<nat>) {
    && a <= z < |run|
    && i in run[a].nodes && run[a].nodes[i].role == Leader
    && confirmed <= run[a].nodes.Keys && i in confirmed
    && 2 * |confirmed| > |run[a].nodes.Keys|
    && forall q | q in confirmed && q != i ::
         exists m :: m in run[z].net && m !in run[a].net && m.src == q && Confirms(m, i, run[a].nodes[i].term)
  }

  /** Everything the leader has not committed when the read begins is of its own term. */
  predicate OnlyOwnBeyond(c: Core) {
    forall k | c.commit <= k < |c.log| :: c.log[k].term == c.term
  }

  /** The leader has committed an entry of its own term. */
  predicate CommittedOwnTerm(c: Core) {
    exists k :: 0 <= k < c.commit && k < |c.log| && c.log[k].term == c.term
  }

  /** The usual rule is a special case: terms rise along the log and none is higher than the node's. */
  lemma CommittedOwnIsEnough(run: seq<State>, a: nat, i: nat)
    requires Run(LastNewEntry, run) && At(run, a, i) && CommittedOwnTerm(run[a].nodes[i])
    ensures OnlyOwnBeyond(run[a].nodes[i])
  {
    RunPrefix(LastNewEntry, run, a + 1);
    var h := RunHistory(run[..a + 1]);
    assert NodeOk(h, i, run[a].nodes[i]);
    LogsWellFormed(run, a, i);
  }

  /** The leader of an empty cluster meets the condition without having committed anything. */
  lemma FirstLeaderNeedsNoCommit(c: Core)
    requires c.log == [] && c.snapIndex == 0
    ensures OnlyOwnBeyond(BecomeLeader(c))
  {
  }

  lemma NoNewerLeader(h: Hist, run: seq<State>, a: nat, z: nat, i: nat, confirmed: set<nat>, u: nat)
    requires Run(LastNewEntry, run) && ReadConfirmed(run, a, z, i, confirmed)
    requires StateOk(h, run[a]) && u in h.elections
    ensures u <= run[a].nodes[i].term
  {
    assert ElectionOk(h, u);
    var v := QuorumsMeet(h, h.elections[u].quorum, confirmed);
    assert VoteOk(h, u, v);
    assert NodeOk(h, v, run[a].nodes[v]);
    assert BallotFits(h, v, run[a].nodes[v], u);
    if v != i {
      var m :| m in run[z].net && m !in run[a].net && m.src == v && Confirms(m, i, run[a].nodes[i].term);
      AnsweredSince(run, a, z, m);
    }
  }

  lemma CommittedEntryTerm(h: Hist, t: nat, p: Log)
    requires HistOk(h) && Committed(h, t, p) && p != []
    ensures p[|p| - 1].term <= t
  {
    var s: nat, j: nat :| s <= t && Chosen(h, s, j) && p <= h.logs[s][..j];
    assert LogOk(h, s);
    assert p[|p| - 1] == h.logs[s][|p| - 1];
  }

  /** A prefix committed in an earlier term is covered by the leader's commit index. */
  lemma OlderCommitIsShorter(h: Hist, t: nat, p: Log, i: nat, c: Core)
    requires HistOk(h) && NodeOk(h, i, c) && c.role == Leader && OnlyOwnBeyond(c)
    requires Committed(h, t, p) && t < c.term
    ensures |p| <= c.commit
  {
    CommittedInLeader(h, t, p, c.term);
    if p != [] {
      CommittedEntryTerm(h, t, p);
      assert p[|p| - 1] == c.log[|p| - 1];
    }
  }

  /** The read index of a confirmed read is at least what any leader had applied when it began. */
  lemma ReadCoversLeader(run: seq<State>, a: nat, z: nat, i: nat, confirmed: set<nat>, b: nat, p: nat)
    requires Run(LastNewEntry, run) && ReadConfirmed(run, a, z, i, confirmed)
    requires OnlyOwnBeyond(run[a].nodes[i])
    requires b <= a && p in run[b].nodes && run[b].nodes[p].role == Leader
    ensures run[b].nodes[p].applied <= run[a].nodes[i].commit
  {
    var w, c := run[b].nodes[p], run[a].nodes[i];
    var now := run[..a + 1];
    RunPrefix(LastNewEntry, run, a + 1);
    var h := RunHistory(now);
    assert now[|now| - 1] == run[a];
    assert NodeOk(h, i, c);
    NodeExplained(h, now, b, p);
    NoNewerLeader(h, run, a, z, i, confirmed, w.term);
    if w.term < c.term {
      OlderCommitIsShorter(h, w.term, w.log[..w.commit], i, c);
    } else {
      LeaderCommitGrows(run, b, a, i);
    }
  }

  /** A confirmed read sees every acknowledged write. At time a leader i, with no entry of an earlier term
      left to commit, begins a read with read index `commit`; by time z a majority has confirmed it,
      and it answers from a state machine that has applied at least that much. Then whatever any
      leader p had applied at any time b up to a -- `handle_submit` acknowledges a write only when
      the leader it ran on has applied it -- is part of what the answer is read from. */
  lemma ReadsSeeAcknowledgedWrites(run: seq<State>, a: nat, z: nat, i: nat, confirmed: set<nat>, b: nat, p: nat)
    requires Run(LastNewEntry, run) && ReadConfirmed(run, a, z, i, confirmed)
    requires OnlyOwnBeyond(run[a].nodes[i])
    requires i in run[z].nodes && run[z].nodes[i].applied >= run[a].nodes[i].commit
    requires b <= a && p in run[b].nodes && run[b].nodes[p].role == Leader
    ensures var w, r := run[b].nodes[p], run[z].nodes[i];
            && w.applied <= run[a].nodes[i].commit <= r.applied
            && w.applied <= |w.log| && r.applied <= |r.log|
            && w.log[..w.applied] <= r.log[..r.applied]
  {
    ReadCoversLeader(run, a, z, i, confirmed, b, p);
    StateMachineSafety(run, b, p, z, i);
  }
}
