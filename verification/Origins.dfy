/** Where the entries of a run come from: every one is a leader's no-op or was appended by one submission,
    and is nowhere before that. And a confirmed read sees what any node had applied before. */
module Origins {
  import opened Types
  import opened CoreSteps
  import opened Cluster
  import opened Applying
  import opened Safety
  import opened ReadIndex

  // ----- runs with their steps -----

  ghost predicate StepTaken(run: seq<State>, steps: seq<Step>, x: nat) {
    x < |steps| && x + 1 < |run| ==> Enabled(run[x], steps[x]) && run[x + 1] == Perform(LastNewEntry, run[x], steps[x])
  }

  ghost predicate Traced(run: seq<State>, steps: seq<Step>) {
    && |run| == |steps| + 1
    && Init(run[0])
    && forall x: nat {:trigger StepTaken(run, steps, x)} :: StepTaken(run, steps, x)
  }

  lemma TracedIsRun(run: seq<State>, steps: seq<Step>)
    requires Traced(run, steps)
    ensures Run(LastNewEntry, run)
  {
    forall k: nat ensures StepAt(LastNewEntry, run, k) {
      if 0 < k < |run| { assert StepTaken(run, steps, k - 1); }
    }
  }

  // ----- one step -----

  predicate InLog(s: State, i: nat, e: Entry) { i in s.nodes && e in s.nodes[i].log }

  predicate InBatch(s: State, m: Message, e: Entry) { m in s.net && m.AppendReq? && e in m.append.entries }

  ghost predicate Present(s: State, e: Entry) { (exists i :: InLog(s, i, e)) || (exists m :: InBatch(s, m, e)) }

  /** The entry a submission appends. */
  function Submitted(c: Core, command: string): Entry { Entry(c.term, LastLogIndex(c) + 1, command) }

  lemma {:induction false} FromSubset(log: seq<Entry>, low: nat, e: Entry)
    requires e in EntriesFrom(log, low)
    ensures e in log
    decreases |log|
  {
    var n := |log| - 1;
    if e != log[n] { FromSubset(log[..n], low, e); }
  }

  lemma {:induction false} UpToSubset(log: seq<Entry>, high: nat, e: Entry)
    requires e in EntriesUpTo(log, high)
    ensures e in log
    decreases |log|
  {
    var n := |log| - 1;
    if e != log[n] { UpToSubset(log[..n], high, e); }
  }

  lemma {:induction false} StoredSubset(snap: nat, log: seq<Entry>, entries: seq<Entry>, e: Entry)
    requires e in StoreEntries(snap, 0, log, entries)
    ensures e in log || e in entries
    decreases |entries|
  {
    if entries != [] {
      var n := |entries| - 1;
      if e in StoreEntries(snap, 0, log, entries[..n]) { StoredSubset(snap, log, entries[..n], e); }
    }
  }

  lemma AppliedSubset(c: Core, e: Entry)
    requires e in ApplyCommitted(c).log
    ensures e in c.log
  {
    ApplyUpToKeepsRest(c);
    if e !in ApplyUpTo(c).log { FromSubset(ApplyUpTo(c).log, ApplyUpTo(c).applied + 1, e); }
  }

  lemma AcceptedSubset(c: Core, req: AppendArgs, e: Entry)
    requires e in AcceptEntries(LastNewEntry, c, req).log
    ensures e in c.log || e in req.entries
  {
    var c1 := c.(log := StoreEntries(c.snapIndex, 0, c.log, req.entries));
    if req.leaderCommit > c.commit { AppliedSubset(c1.(commit := NewCommit(LastNewEntry, c1, req)), e); }
    StoredSubset(c.snapIndex, c.log, req.entries, e);
  }

  lemma RepliedSubset(c: Core, m: Message, e: Entry)
    requires m.AppendRep? && e in HandleReply(c, m).log
    ensures e in c.log
  {
    var c1 := RecordReply(StepDown(c, m.appended.term), m.src, m.callIndex, m.appended);
    hide ApplyCommitted;
    if e !in c1.log { AppliedSubset(c1.(commit := m.callIndex), e); }
  }

  lemma DyingSubset(c: Core, req: AppendArgs, stored: nat, cut: bool, e: Entry)
    requires stored <= |req.entries| && e in DiskInAppend(c, req, stored, cut).log
    ensures e in c.log || e in req.entries
  {
    StoredSubset(c.snapIndex, c.log, req.entries[..stored], e);
  }

  /** A log gains no entry but from a batch, as a no-op, or as a submission. */
  lemma LogGains(s: State, step: Step, e: Entry)
    requires Enabled(s, step) && e in Perform(LastNewEntry, s, step).nodes[step.node].log
    ensures || Present(s, e) || e.command == NOOP_COMMAND
            || (step.Submit? && e == Submitted(s.nodes[step.node], step.command))
  {
    var i, c := step.node, s.nodes[step.node];
    hide HandleReply, DiskInAppend, AcceptEntriesAt, CheckPrev;
    match step
    case ReceiveAppendReq(_, m) =>
      if e !in c.log { AcceptedSubset(StepDown(c, m.append.term).(role := Follower), m.append, e); }
      assert InLog(s, i, e) || InBatch(s, m, e);
    case ReceiveAppendRep(_, m) =>
      RepliedSubset(c, m, e);
      assert InLog(s, i, e);
    case CrashInAppend(_, m, stored, cut) =>
      DyingSubset(c, m.append, stored, cut, e);
      assert InLog(s, i, e) || InBatch(s, m, e);
    case _ =>
      assert e in c.log ==> InLog(s, i, e);
  }

  lemma BatchGains(s: State, step: Step, m: Message, e: Entry)
    requires Enabled(s, step) && InBatch(Perform(LastNewEntry, s, step), m, e) && m !in s.net
    ensures Present(s, e)
  {
    var i, c := step.node, s.nodes[step.node];
    if step.Heartbeat? {
      FromSubset(c.log, NextFor(c, m.dst), e);
    } else if step.Replicate? {
      UpToSubset(EntriesFrom(c.log, NextFor(c, m.dst)), step.index, e);
      FromSubset(c.log, NextFor(c, m.dst), e);
    }
    assert InLog(s, i, e);
  }

  lemma StepGains(s: State, step: Step, e: Entry)
    requires Enabled(s, step) && Present(Perform(LastNewEntry, s, step), e)
    ensures || Present(s, e) || e.command == NOOP_COMMAND
            || (step.Submit? && e == Submitted(s.nodes[step.node], step.command))
  {
    var s' := Perform(LastNewEntry, s, step);
    if i :| InLog(s', i, e) {
      if i == step.node { LogGains(s, step, e); } else { assert InLog(s, i, e); }
    } else {
      var m :| InBatch(s', m, e);
      if m in s.net { assert InBatch(s, m, e); } else { BatchGains(s, step, m, e); }
    }
  }

  // ----- the origin of an entry -----

  /** Step x of the run is the submission that appends e. */
  ghost predicate Submits(run: seq<State>, steps: seq<Step>, x: nat, e: Entry) {
    && x < |steps| && x < |run| && steps[x].Submit? && At(run, x, steps[x].node)
    && e == Submitted(run[x].nodes[steps[x].node], steps[x].command)
  }

  lemma {:induction false} OriginOf(run: seq<State>, steps: seq<Step>, b: nat, e: Entry) returns (x: nat)
    requires Traced(run, steps) && b < |run| && Present(run[b], e) && e.command != NOOP_COMMAND
    ensures x < b && Submits(run, steps, x, e)
  {
    if b == 0 {
      assert false;
    } else {
      assert StepTaken(run, steps, b - 1);
      StepGains(run[b - 1], steps[b - 1], e);
      if Present(run[b - 1], e) { x := OriginOf(run, steps, b - 1, e); } else { x := b - 1; }
    }
  }

  /** The leader that appended an entry, from then on while it leads that term. */
  lemma LeaderKeeps(run: seq<State>, steps: seq<Step>, x: nat, e: Entry, a: nat)
    requires Traced(run, steps) && Submits(run, steps, x, e) && x < a && At(run, a, steps[x].node)
    requires var c := run[a].nodes[steps[x].node]; c.role == Leader && c.term == e.term
    ensures var c := run[a].nodes[steps[x].node]; 1 <= e.index <= |c.log| && c.log[e.index - 1] == e
  {
    TracedIsRun(run, steps);
    var i := steps[x].node;
    assert StepTaken(run, steps, x);
    LogsWellFormed(run, x, i);
    SnapshotsOff(run, x, i);
    LeaderLogGrows(run, x + 1, a, i);
    assert run[x + 1].nodes[i].log[e.index - 1] == e;
  }

  /** A term and index are given out once. */
  lemma SubmitsOnce(run: seq<State>, steps: seq<Step>, x: nat, y: nat, e: Entry, f: Entry)
    requires Traced(run, steps) && Submits(run, steps, x, e) && Submits(run, steps, y, f) && x <= y
    requires e.term == f.term && e.index == f.index
    ensures x == y
  {
    if x < y {
      TracedIsRun(run, steps);
      assert StepTaken(run, steps, x) && StepTaken(run, steps, y);
      ElectionSafety(run, x, steps[x].node, y, steps[y].node);
      LeaderKeeps(run, steps, x, e, y);
      LogsWellFormed(run, y, steps[y].node);
    }
  }

  /** No log has the entry before it is submitted. */
  lemma NotBeforeSubmission(run: seq<State>, steps: seq<Step>, x: nat, e: Entry, b: nat, i: nat)
    requires Traced(run, steps) && Submits(run, steps, x, e) && b <= x && At(run, b, i)
    requires e.command != NOOP_COMMAND
    ensures e !in run[b].nodes[i].log
  {
    if e in run[b].nodes[i].log {
      assert InLog(run[b], i, e);
      var y := OriginOf(run, steps, b, e);
      SubmitsOnce(run, steps, y, x, e, e);
    }
  }

  // ----- what followers apply, a leader applied before -----

  ghost predicate Led(run: seq<State>, b: nat, q: nat, n: nat) {
    At(run, b, q) && run[b].nodes[q].role == Leader && run[b].nodes[q].commit >= n
  }

  /** Some leader had committed n entries by time b. */
  ghost predicate Reached(run: seq<State>, b: nat, n: nat) {
    n == 0 || exists a: nat, q: nat :: a <= b && Led(run, a, q, n)
  }

  /** A commit index comes from the node's own count as a leader or from a request. */
  predicate CommitFrom(s: State, c: Core, c': Core, m: Message) {
    c'.commit <= c.commit || c'.role == Leader
    || (m in s.net && m.AppendReq? && c'.commit <= m.append.leaderCommit)
  }

  lemma CountedCommit(c: Core, m: Message)
    requires m.AppendRep?
    ensures var c' := HandleReply(c, m); c'.commit <= c.commit || c'.role == Leader
  {
    var c1 := RecordReply(StepDown(c, m.appended.term), m.src, m.callIndex, m.appended);
    ApplyKeepsRest(c1.(commit := m.callIndex));
    hide ApplyCommitted;
  }

  lemma ToldCommit(c: Core, req: AppendArgs)
    ensures HandleAppendEntries(LastNewEntry, c, req).0.commit <= Max(c.commit, req.leaderCommit)
  {
    var c1 := c.(log := StoreEntries(c.snapIndex, 0, c.log, req.entries));
    hide StoreEntries, CheckPrev;
    forall d: Core ensures ApplyCommitted(d).commit == d.commit { ApplyUpToKeepsRest(d); }
    hide ApplyCommitted;
  }

  lemma StepCommits(s: State, step: Step) returns (m: Message)
    requires Enabled(s, step)
    ensures CommitFrom(s, s.nodes[step.node], Perform(LastNewEntry, s, step).nodes[step.node], m)
  {
    var c := s.nodes[step.node];
    m := VoteRep(0, 0, 0, VoteResult(0, false));
    hide HandleAppendEntries, HandleReply;
    match step
    case ReceiveAppendReq(_, req) =>
      ToldCommit(c, req.append);
      m := req;
    case ReceiveAppendRep(_, rep) => CountedCommit(c, rep);
    case _ =>
  }

  lemma SentCommit(s: State, step: Step, m: Message)
    requires Enabled(s, step) && m.AppendReq? && m in Perform(LastNewEntry, s, step).net && m !in s.net
    ensures m.append.leaderCommit == s.nodes[step.node].commit
  {
  }

  lemma ReachedStays(run: seq<State>, b: nat, n: nat, k: nat)
    requires Reached(run, b, n) && k <= n
    ensures Reached(run, b, k) && Reached(run, b + 1, k)
  {
    if k > 0 {
      var a: nat, q: nat :| a <= b && Led(run, a, q, n);
      assert Led(run, a, q, k);
    }
  }

  ghost predicate CommitsReached(run: seq<State>, b: nat)
    requires b < |run|
  {
    && (forall i <- run[b].nodes :: Reached(run, b, run[b].nodes[i].commit))
    && (forall m <- run[b].net | m.AppendReq? :: Reached(run, b, m.append.leaderCommit))
  }

  lemma StepReached(run: seq<State>, steps: seq<Step>, b: nat)
    requires Traced(run, steps) && b + 1 < |run| && CommitsReached(run, b)
    ensures CommitsReached(run, b + 1)
  {
    assert StepTaken(run, steps, b);
    var s, step, s' := run[b], steps[b], run[b + 1];
    var m := StepCommits(s, step);
    hide Perform, Enabled, Reached;
    forall i <- s'.nodes ensures Reached(run, b + 1, s'.nodes[i].commit) {
      OthersSame(s, step);
      if i != step.node { ReachedStays(run, b, s.nodes[i].commit, s.nodes[i].commit); }
      else { MoverReached(run, b, i, m); }
    }
    forall m <- s'.net | m.AppendReq? ensures Reached(run, b + 1, m.append.leaderCommit) {
      if m !in s.net { SentCommit(s, step, m); }
      ReachedStays(run, b, m.append.leaderCommit, m.append.leaderCommit);
    }
  }

  lemma OthersSame(s: State, step: Step)
    requires Enabled(s, step)
    ensures var s' := Perform(LastNewEntry, s, step);
            && step.node in s.nodes && s'.nodes.Keys == s.nodes.Keys
            && forall i <- s.nodes | i != step.node :: s'.nodes[i] == s.nodes[i]
  {
  }

  lemma MoverReached(run: seq<State>, b: nat, i: nat, m: Message)
    requires b + 1 < |run| && CommitsReached(run, b) && i in run[b].nodes && i in run[b + 1].nodes
    requires CommitFrom(run[b], run[b].nodes[i], run[b + 1].nodes[i], m)
    ensures Reached(run, b + 1, run[b + 1].nodes[i].commit)
  {
    var c, c' := run[b].nodes[i], run[b + 1].nodes[i];
    if c'.commit <= c.commit {
      ReachedStays(run, b, c.commit, c'.commit);
    } else if c'.role == Leader {
      assert Led(run, b + 1, i, c'.commit);
    } else {
      ReachedStays(run, b, m.append.leaderCommit, c'.commit);
    }
  }

  lemma {:induction false} AllReached(run: seq<State>, steps: seq<Step>, b: nat)
    requires Traced(run, steps) && b < |run|
    ensures CommitsReached(run, b)
  {
    if b > 0 {
      AllReached(run, steps, b - 1);
      StepReached(run, steps, b - 1);
    }
  }

  /** A confirmed read sees whatever any node, leader or not, had applied when it began. */
  lemma ReadsSeeWhatAnyApplied(run: seq<State>, steps: seq<Step>, a: nat, z: nat, i: nat, confirmed: set<nat>,
                               r: nat, b: nat, p: nat)
    requires Traced(run, steps) && ReadConfirmed(run, a, z, i, confirmed) && OnlyOwnBeyond(run[a].nodes[i])
    requires At(run, r, i) && run[r].nodes[i].applied >= run[a].nodes[i].commit
    requires b <= a && At(run, b, p)
    ensures run[b].nodes[p].applied <= run[r].nodes[i].applied
  {
    TracedIsRun(run, steps);
    AllReached(run, steps, b);
    var n := run[b].nodes[p].commit;
    ReplicasAgree(run, b, p, b, p);
    if n > 0 {
      var b': nat, q: nat :| b' <= b && Led(run, b', q, n);
      ReplicasAgree(run, b', q, b', q);
      ReadCoversLeader(run, a, z, i, confirmed, b', q);
    }
  }
}
