/** A cluster of nodes as a transition system. Requests and replies, once sent, stay in `net`
    for ever: never delivering one is loss, delivering it late or twice is delay and
    duplication. Nodes crash at any point, also between two writes of one handler. Snapshots
    are switched off (threshold 0, src/core/raft_core.rs:236, 741). */
module Cluster {
  import opened Types
  import opened CoreSteps
  import KvStore

  /** `callTerm` and `callIndex` are what the caller remembers about its own call
      (src/core/raft_node.rs:56-72, 124-147); `probe` numbers the empty requests of one
      leadership confirmation and is None for heartbeats and replication. */
  datatype Message =
    | VoteReq(src: nat, dst: nat, vote: VoteArgs)
    | VoteRep(src: nat, dst: nat, callTerm: nat, voted: VoteResult)
    | AppendReq(src: nat, dst: nat, append: AppendArgs, callIndex: nat, probe: Option<nat>)
    | AppendRep(src: nat, dst: nat, callTerm: nat, callIndex: nat, probe: Option<nat>, appended: AppendResult)

  datatype State = State(nodes: map<nat, Core>, net: set<Message>)

  /** The vote of a node that dies in a term update is whatever the disk still holds. A refused snapshot
      only matters for its term: with snapshots off none is sent. */
  datatype Step =
    | Timeout(node: nat)                              // RaftNode::start_election
    | RequestVotes(node: nat)
    | ReceiveVoteReq(node: nat, msg: Message)
    | ReceiveVoteRep(node: nat, msg: Message)
    | Submit(node: nat, command: string)
    | Replicate(node: nat, index: nat)                // replicate_to_peers
    | Heartbeat(node: nat)
    | ConfirmLeadership(node: nat, readId: nat)
    | ReceiveAppendReq(node: nat, msg: Message)
    | ReceiveAppendRep(node: nat, msg: Message)
    | Crash(node: nat)
    | SnapshotRefused(node: nat, term: nat)
    | CrashInTermUpdate(node: nat, term: nat, vote: Option<nat>)
    | CrashInAppend(node: nat, msg: Message, stored: nat, cut: bool)

  // ----- configuration and start -----

  function Restart(c: Core, disk: Stored): Core { Boot(c.id, c.peers, disk, 0) }

  function DiskOf(c: Core): Stored { Stored(c.term, c.votedFor, c.log, None) }

  predicate Configured(servers: set<nat>, i: nat, c: Core) {
    && c.id == i && i in servers
    && (forall p <- servers :: p == i || p in c.peers)
    && (forall p <- c.peers :: p in servers && p != i)
    && |c.peers| + 1 == |servers|
  }

  predicate Init(s: State) {
    && s.net == {}
    && forall i <- s.nodes ::
         && Configured(s.nodes.Keys, i, s.nodes[i])
         && s.nodes[i] == Boot(i, s.nodes[i].peers, Stored(0, None, [], None), 0)
  }

  // ----- the requests of one step -----

  function VoteRequests(c: Core): set<Message> {
    set p | p in c.peers :: VoteReq(c.id, p, VoteRequest(c))
  }

  function Heartbeats(c: Core): set<Message> {
    set p | p in c.peers ::
      AppendReq(c.id, p, AppendRequest(c, p, HeartbeatEntries(c, p)), HeartbeatIndex(c, p), None)
  }

  function Replications(c: Core, index: nat): set<Message> {
    set p | p in c.peers :: AppendReq(c.id, p, AppendRequest(c, p, SubmitEntries(c, p, index)), index, None)
  }

  function Probes(c: Core, readId: nat): set<Message> {
    set p | p in c.peers :: AppendReq(c.id, p, AppendRequest(c, p, []), 0, Some(readId))
  }

  /** A confirmation reply only ever steps the leader down (src/core/raft_node.rs:367-371);
      the new term is written to disk as in `update_term`. */
  function HandleReply(c: Core, m: Message): Core
    requires m.AppendRep?
  {
    if m.probe.Some? then StepDown(c, m.appended.term)
    else HandleAppendResult(c, m.src, m.callIndex, m.appended)
  }

  /** What the disk may hold if the node dies while storing a batch: the first `stored` entries
      handled, then perhaps the log cut for the next one. */
  function DiskInAppend(c: Core, req: AppendArgs, stored: nat, cut: bool): Stored
    requires stored <= |req.entries|
  {
    var log := StoreEntries(c.snapIndex, 0, c.log, req.entries[..stored]);
    var c1 := StepDown(c, req.term);
    if cut && stored < |req.entries| && Conflicting(c.snapIndex, log, req.entries[stored])
    then Stored(c1.term, c1.votedFor, CutLog(0, log, req.entries[stored].index), None)
    else Stored(c1.term, c1.votedFor, log, None)
  }

  predicate Conflicting(snapIndex: nat, log: seq<Entry>, e: Entry) {
    && e.index > snapIndex
    && e.index - snapIndex - 1 < |log|
    && log[e.index - snapIndex - 1].term != e.term
  }

  // ----- steps -----

  /** Replies reach the call that asked: the server runs one operation at a time, so a node that
      is still candidate or leader is so in the term of that call (src/core/raft_server.rs:138-195). */
  predicate Enabled(s: State, step: Step) {
    && step.node in s.nodes
    && var c := s.nodes[step.node];
    match step
    case Timeout(_) => true
    case RequestVotes(_) => true
    case ReceiveVoteReq(i, m) => m in s.net && m.VoteReq? && m.dst == i
    case ReceiveVoteRep(i, m) =>
      && m in s.net && m.VoteRep? && m.dst == i
      && (c.role == Candidate ==> m.callTerm == c.term)
    case Submit(_, command) => c.role == Leader && KvStore.Validate(command)
    case Replicate(_, index) => c.role == Leader && index == LastLogIndex(c)
    case Heartbeat(_) => c.role == Leader
    case ConfirmLeadership(_, _) => c.role == Leader
    case ReceiveAppendReq(i, m) => m in s.net && m.AppendReq? && m.dst == i
    case ReceiveAppendRep(i, m) =>
      && m in s.net && m.AppendRep? && m.dst == i
      && (c.role == Leader ==> m.callTerm == c.term)
    case Crash(_) => true
    case SnapshotRefused(_, _) => c.role == Leader
    case CrashInTermUpdate(_, term, _) => term > c.term
    case CrashInAppend(i, m, stored, _) =>
      && m in s.net && m.AppendReq? && m.dst == i
      && stored <= |m.append.entries|
      && m.append.term >= c.term
      && CheckPrev(c, m.append.prevLogIndex, m.append.prevLogTerm) == Agrees
  }

  function Update(s: State, i: nat, c: Core, sent: set<Message>): State {
    State(s.nodes[i := c], s.net + sent)
  }

  function Perform(rule: CommitRule, s: State, step: Step): State
    requires Enabled(s, step)
  {
    var i := step.node;
    var c := s.nodes[i];
    match step
    case Timeout(_) => Update(s, i, StartElection(c), {})
    case RequestVotes(_) => Update(s, i, c, VoteRequests(c))
    case ReceiveVoteReq(_, m) =>
      var (c', result) := HandleRequestVote(c, m.vote);
      Update(s, i, c', {VoteRep(i, m.src, m.vote.term, result)})
    case ReceiveVoteRep(_, m) => Update(s, i, HandleVoteResult(c, m.src, m.voted).0, {})
    case Submit(_, command) => Update(s, i, AppendCommand(c, command).value, {})
    case Replicate(_, index) => Update(s, i, c, Replications(c, index))
    case Heartbeat(_) => Update(s, i, c, Heartbeats(c))
    case ConfirmLeadership(_, readId) => Update(s, i, c, Probes(c, readId))
    case ReceiveAppendReq(_, m) =>
      var (c', result) := HandleAppendEntries(rule, c, m.append);
      Update(s, i, c', {AppendRep(i, m.src, m.append.term, m.callIndex, m.probe, result)})
    case ReceiveAppendRep(_, m) => Update(s, i, HandleReply(c, m), {})
    case Crash(_) => Update(s, i, Restart(c, DiskOf(c)), {})
    case SnapshotRefused(_, term) => Update(s, i, StepDown(c, term), {})
    case CrashInTermUpdate(_, term, vote) => Update(s, i, Restart(c, Stored(term, vote, c.log, None)), {})
    case CrashInAppend(_, m, stored, cut) =>
      Update(s, i, Restart(c, DiskInAppend(c, m.append, stored, cut)), {})
  }

  ghost predicate Next(rule: CommitRule, s: State, s': State) {
    exists step :: Enabled(s, step) && s' == Perform(rule, s, step)
  }

  /** A run: the initial state, then one step after another. */
  ghost predicate Run(rule: CommitRule, run: seq<State>) {
    && run != []
    && Init(run[0])
    && forall k: nat {:trigger StepAt(rule, run, k)} :: StepAt(rule, run, k)
  }

  ghost predicate StepAt(rule: CommitRule, run: seq<State>, k: nat) {
    0 < k < |run| ==> Next(rule, run[k - 1], run[k])
  }
}
