/** The handlers of src/core/raft_core.rs as functions from a node's memory to its next
    memory and its reply, and the message builders of src/core/raft_node.rs. The class in
    RaftCore.dfy, which works in place, is proved to compute these functions. */
module CoreSteps {
  import opened Types
  import KvStore

  // ----- reading the log through the snapshot offset -----

  function LastLogIndex(c: Core): nat {
    if c.log == [] then c.snapIndex else c.log[|c.log| - 1].index
  }

  function LastLogTerm(c: Core): nat {
    if c.log == [] then c.snapTerm else c.log[|c.log| - 1].term
  }

  function GetEntry(c: Core, index: nat): Option<Entry> {
    if index <= c.snapIndex then None
    else if index - c.snapIndex - 1 < |c.log| then Some(c.log[index - c.snapIndex - 1])
    else None
  }

  /** First index of the run of `term` that ends at `from`, never below the first index held. */
  function FirstIndexOfRun(c: Core, term: nat, from: nat): nat
    decreases from
  {
    if from > c.snapIndex + 1 && GetEntry(c, from - 1).Some? && GetEntry(c, from - 1).value.term == term
    then FirstIndexOfRun(c, term, from - 1)
    else from
  }

  /** Index of the last entry of `term` among the first `n`, giving up below that term. */
  function LastIndexInLog(log: seq<Entry>, n: nat, term: nat): Option<nat>
    requires n <= |log|
  {
    if n == 0 then None
    else if log[n - 1].term == term then Some(log[n - 1].index)
    else if log[n - 1].term < term then None
    else LastIndexInLog(log, n - 1, term)
  }

  function LastIndexForTerm(c: Core, term: nat): Option<nat> {
    var found := LastIndexInLog(c.log, |c.log|, term);
    if found.Some? then found
    else if c.snapTerm == term && c.snapIndex > 0 then Some(c.snapIndex)
    else None
  }

  function UpToDate(lastTerm: nat, lastIndex: nat, myTerm: nat, myIndex: nat): bool {
    lastTerm > myTerm || (lastTerm == myTerm && lastIndex >= myIndex)
  }

  function Majority(c: Core): nat { (1 + |c.peers|) / 2 + 1 }

  // ----- terms and votes -----

  /** A higher term was seen: adopt it, forget the vote, follow. */
  function StepDown(c: Core, term: nat): Core {
    if term > c.term then c.(term := term, votedFor := None, role := Follower) else c
  }

  function HandleRequestVote(c: Core, req: VoteArgs): (Core, VoteResult) {
    if req.term < c.term then (c, VoteResult(c.term, false))
    else
      var c1 := StepDown(c, req.term);
      if c1.votedFor.Some? && c1.votedFor != Some(req.candidateId) then (c1, VoteResult(c1.term, false))
      else if !UpToDate(req.lastLogTerm, req.lastLogIndex, LastLogTerm(c1), LastLogIndex(c1))
      then (c1, VoteResult(c1.term, false))
      else (c1.(votedFor := Some(req.candidateId)), VoteResult(c1.term, true))
  }

  /** What a vote writes: the term only if it is new, the vote if it changed. */
  function DiskAfterVote(disk: Stored, c: Core, req: VoteArgs): Stored {
    var (c', r) := HandleRequestVote(c, req);
    if req.term > c.term then disk.(term := c'.term, votedFor := c'.votedFor)
    else if r.granted then disk.(votedFor := c'.votedFor)
    else disk
  }

  function StartElection(c: Core): Core {
    c.(term := c.term + 1, role := Candidate, votedFor := Some(c.id), votes := [c.id])
  }

  function WithEach(m: map<nat, nat>, keys: seq<nat>, value: nat): map<nat, nat> {
    m + (map k | k in keys :: value)
  }

  function BecomeLeader(c: Core): Core {
    var noop := Entry(c.term, LastLogIndex(c) + 1, NOOP_COMMAND);
    c.(role := Leader,
    next := WithEach(c.next, c.peers, LastLogIndex(c) + 1),
    acked := WithEach(c.acked, c.peers, 0),
    log := c.log + [noop])
  }

  /** Also says whether the node became leader by this reply. */
  function HandleVoteResult(c: Core, peer: nat, result: VoteResult): (Core, bool) {
    var c1 := StepDown(c, result.term);
    if c1.role != Candidate then (c1, false)
    else
      var c2 := if result.granted && peer !in c1.votes then c1.(votes := c1.votes + [peer]) else c1;
      if |c2.votes| >= Majority(c2) then (BecomeLeader(c2), true) else (c2, false)
  }

  // ----- log replication -----

  /** Cut the log before `fromIndex`, taking position 0 for index `base + 1`. The source always
      takes base 0, whatever the snapshot offset; SnapshotLayer says when that is harmless. */
  function CutLog(base: nat, log: seq<Entry>, fromIndex: nat): seq<Entry>
    requires fromIndex > base
  {
    log[..Min(fromIndex - base - 1, |log|)]
  }

  function StoreEntry(snapIndex: nat, base: nat, log: seq<Entry>, e: Entry): seq<Entry>
    requires base <= snapIndex
  {
    if e.index <= snapIndex then log
    else
      var k := e.index - snapIndex - 1;
      if k < |log| then if log[k].term != e.term then CutLog(base, log, e.index) + [e] else log
      else log + [e]
  }

  function StoreEntries(snapIndex: nat, base: nat, log: seq<Entry>, entries: seq<Entry>): seq<Entry>
    requires base <= snapIndex
    decreases |entries|
  {
    if entries == [] then log
    else
      var n := |entries| - 1;
      StoreEntry(snapIndex, base, StoreEntries(snapIndex, base, log, entries[..n]), entries[n])
  }

  /** Whether every entry still to be applied is there. */
  predicate Applicable(c: Core) {
    c.commit <= c.applied || (c.snapIndex <= c.applied && c.commit <= c.snapIndex + |c.log|)
  }

  /** Apply one committed entry after another. On a missing entry the source panics, its counter already
      moved on; RaftCore says exactly when. */
  function ApplyUpTo(c: Core): Core
    decreases c.commit - c.applied
  {
    var e := GetEntry(c, c.applied + 1);
    if c.applied >= c.commit then c
    else if e.None? then c.(applied := c.applied + 1)
    else ApplyUpTo(c.(applied := c.applied + 1, data := KvStore.ApplyCommand(c.data, e.value.command).0))
  }

  function EntriesFrom(log: seq<Entry>, low: nat): seq<Entry> {
    if log == [] then []
    else EntriesFrom(log[..|log| - 1], low) +
         if log[|log| - 1].index >= low then [log[|log| - 1]] else []
  }

  /** Compact the log up to `applied`; None where the source returns an error. */
  function TakeSnapshot(c: Core): Option<Core> {
    if c.applied == 0 || c.applied <= c.snapIndex || GetEntry(c, c.applied).None? then None
    else Some(c.(snapIndex := c.applied, snapTerm := GetEntry(c, c.applied).value.term,
              log := EntriesFrom(c.log, c.applied + 1)))
  }

  function AutoSnapshot(c: Core): Core {
    if c.threshold > 0 && c.applied - c.snapIndex >= c.threshold && TakeSnapshot(c).Some?
    then TakeSnapshot(c).value else c
  }

  /** A panic comes before the automatic snapshot. */
  function ApplyCommitted(c: Core): Core { if Applicable(c) then AutoSnapshot(ApplyUpTo(c)) else ApplyUpTo(c) }

  /** What a follower answers about the entry before a batch. */
  datatype PrevCheck = Agrees | Conflict(term: Option<nat>, index: nat)

  function CheckPrev(c: Core, prevIndex: nat, prevTerm: nat): PrevCheck {
    if prevIndex == 0 then Agrees
    else if prevIndex > LastLogIndex(c) then Conflict(None, LastLogIndex(c) + 1)
    else if prevIndex == c.snapIndex then
      if prevTerm != c.snapTerm then Conflict(Some(c.snapTerm), c.snapIndex) else Agrees
    else
      match GetEntry(c, prevIndex)
      case None => Conflict(None, c.snapIndex + 1)
      case Some(e) =>
        if e.term != prevTerm then Conflict(Some(e.term), FirstIndexOfRun(c, e.term, prevIndex)) else Agrees
  }

  /** How far a follower may move its commit index for an accepted batch.
      `AsWritten` bounds the leader's commit index by the follower's own last index;
      `LastNewEntry` bounds it by the last entry the batch vouches for, as the comment there says. */
  datatype CommitRule = AsWritten | LastNewEntry

  function NewCommit(rule: CommitRule, c: Core, req: AppendArgs): nat {
    if req.leaderCommit <= c.commit then c.commit
    else
      match rule
      case AsWritten => Min(req.leaderCommit, LastLogIndex(c))
      case LastNewEntry => Max(c.commit, Min(req.leaderCommit, req.prevLogIndex + |req.entries|))
  }

  function AcceptEntriesAt(rule: CommitRule, base: nat, c: Core, req: AppendArgs): Core
    requires base <= c.snapIndex
  {
    var c1 := c.(log := StoreEntries(c.snapIndex, base, c.log, req.entries));
    if req.leaderCommit > c1.commit then ApplyCommitted(c1.(commit := NewCommit(rule, c1, req))) else c1
  }

  function AcceptEntries(rule: CommitRule, c: Core, req: AppendArgs): Core { AcceptEntriesAt(rule, 0, c, req) }

  function HandleAppendEntriesAt(rule: CommitRule, base: nat, c: Core, req: AppendArgs): (Core, AppendResult)
    requires base <= c.snapIndex
  {
    var c1 := StepDown(c, req.term);
    if req.term < c1.term then (c1, AppendResult(c1.term, false, None, None))
    else
      var c2 := c1.(role := Follower);
      match CheckPrev(c2, req.prevLogIndex, req.prevLogTerm)
      case Agrees => (AcceptEntriesAt(rule, base, c2, req), AppendResult(c1.term, true, None, None))
      case Conflict(t, i) => (c2, AppendResult(c1.term, false, t, Some(i)))
  }

  /** The handler of the source: log cuts take position 0 for index 1. */
  function HandleAppendEntries(rule: CommitRule, c: Core, req: AppendArgs): (Core, AppendResult) {
    HandleAppendEntriesAt(rule, 0, c, req)
  }

  /** Where the leader probes next after a rejection. */
  function NextAfterRejection(c: Core, current: nat, result: AppendResult): nat {
    var hinted :=
      match result.conflictTerm
      case Some(t) =>
        (match LastIndexForTerm(c, t)
         case Some(i) => i + 1
         case None => if result.conflictIndex.Some? then result.conflictIndex.value else 1)
      case None =>
        if result.conflictIndex.Some? then result.conflictIndex.value
        else if current > 1 then current - 1 else 1;
    Min(Max(hinted, 1), if current > 1 then current - 1 else 1)
  }

  function Replicated(acked: map<nat, nat>, index: nat): set<nat> {
    set p | p in acked && acked[p] >= index
  }

  function RecordReply(c: Core, peer: nat, index: nat, result: AppendResult): Core {
    if result.success then
      if index > 0 then
        c.(acked := if index > Lookup(c.acked, peer, 0) then c.acked[peer := index] else c.acked,
        next := c.next[peer := index + 1])
      else c
    else c.(next := c.next[peer := NextAfterRejection(c, Lookup(c.next, peer, 1), result)])
  }

  function HandleAppendResult(c: Core, peer: nat, index: nat, result: AppendResult): Core {
    var c1 := StepDown(c, result.term);
    if c1.role != Leader then c1 else CommitCounted(RecordReply(c1, peer, index, result), index)
  }

  /** Commits and applies up to an entry of the node's own term that a majority holds. */
  function CommitCounted(c: Core, index: nat): Core {
    if index == 0 || GetEntry(c, index).None? || GetEntry(c, index).value.term != c.term then c
    else if 1 + |Replicated(c.acked, index)| >= Majority(c) && index > c.commit
    then ApplyCommitted(c.(commit := index))
    else c
  }

  /** A client command; None on a node that is not leader. */
  function AppendCommand(c: Core, command: string): Option<Core> {
    if c.role != Leader then None
    else Some(c.(log := c.log + [Entry(c.term, LastLogIndex(c) + 1, command)]))
  }

  // ----- snapshots and restart -----

  function InstallSnapshot(c: Core, args: InstallArgs): (Core, InstallResult) {
    if args.term < c.term then (c, Refused(c.term))
    else
      var c1 := StepDown(c, args.term);
      if args.snapshot.lastIndex <= c1.snapIndex then (c1, Refused(c1.term))
      else
        (c1.(snapIndex := args.snapshot.lastIndex, snapTerm := args.snapshot.lastTerm,
         log := EntriesFrom(c1.log, args.snapshot.lastIndex + 1),
         commit := Max(c1.commit, args.snapshot.lastIndex),
         applied := Max(c1.applied, args.snapshot.lastIndex),
         data := args.snapshot.data), Installed(c1.term))
  }

  /** A node started on what its storage holds, with a fresh state machine. */
  function Boot(id: nat, peers: seq<nat>, disk: Stored, threshold: nat): Core {
    var i := if disk.snapshot.Some? then disk.snapshot.value.lastIndex else 0;
    Core(id, peers, disk.term, disk.votedFor, disk.log,
         i, if disk.snapshot.Some? then disk.snapshot.value.lastTerm else 0,
         i, i, map[], map[], Follower, [], threshold,
         if disk.snapshot.Some? then disk.snapshot.value.data else map[])
  }

  // ----- messages built by src/core/raft_node.rs -----

  function VoteRequest(c: Core): VoteArgs {
    VoteArgs(c.term, c.id, LastLogIndex(c), LastLogTerm(c))
  }

  function PrevTerm(c: Core, prevIndex: nat): nat {
    if prevIndex == c.snapIndex then c.snapTerm
    else if prevIndex > c.snapIndex && prevIndex - c.snapIndex - 1 < |c.log|
    then c.log[prevIndex - c.snapIndex - 1].term
    else 0
  }

  function NextFor(c: Core, peer: nat): nat { Lookup(c.next, peer, 1) }

  /** A next index is never 0 (Invariant.NodeOk), so the subtraction in the source is safe. */
  function AppendRequest(c: Core, peer: nat, entries: seq<Entry>): AppendArgs {
    var prev := if NextFor(c, peer) == 0 then 0 else NextFor(c, peer) - 1;
    AppendArgs(c.term, c.id, prev, PrevTerm(c, prev), entries, c.commit)
  }

  /** A heartbeat carries everything from the peer's next index on. */
  function HeartbeatEntries(c: Core, peer: nat): seq<Entry> { EntriesFrom(c.log, NextFor(c, peer)) }

  function HeartbeatIndex(c: Core, peer: nat): nat {
    var es := HeartbeatEntries(c, peer);
    if es == [] then 0 else es[|es| - 1].index
  }

  function EntriesUpTo(log: seq<Entry>, high: nat): seq<Entry> {
    if log == [] then []
    else EntriesUpTo(log[..|log| - 1], high) +
         if log[|log| - 1].index <= high then [log[|log| - 1]] else []
  }

  /** Replication of one submitted entry carries the peer's next index up to that entry. */
  function SubmitEntries(c: Core, peer: nat, index: nat): seq<Entry> {
    EntriesUpTo(EntriesFrom(c.log, NextFor(c, peer)), index)
  }
}
