/** What every handler of src/core/raft_core.rs decides, said of its inputs alone: when a vote is granted, an
    election won, a batch accepted, an entry committed, a snapshot taken or installed. Together with the
    safety theorems, which only say that nothing wrong is decided, this says that what is right is. */
module Decisions {
  import opened Types
  import opened CoreSteps
  import opened Batch
  import opened Applying
  import KvStore

  // ----- votes -----

  /** Of two logs one is up to date with the other, and both are only if they end alike. */
  lemma UpToDateOrder(aTerm: nat, aIndex: nat, bTerm: nat, bIndex: nat)
    ensures UpToDate(aTerm, aIndex, bTerm, bIndex) || UpToDate(bTerm, bIndex, aTerm, aIndex)
    ensures UpToDate(aTerm, aIndex, bTerm, bIndex) && UpToDate(bTerm, bIndex, aTerm, aIndex) <==>
            aTerm == bTerm && aIndex == bIndex
    ensures aTerm > bTerm ==> UpToDate(aTerm, aIndex, bTerm, bIndex)
  {
  }

  /** Index and term of the last entry, or of the snapshot if there is none. */
  function LastOf(c: Core): (nat, nat) {
    if c.log == [] then (c.snapIndex, c.snapTerm) else (c.log[|c.log| - 1].index, c.log[|c.log| - 1].term)
  }

  /** A vote is granted exactly if the term is not old, the vote of the term is free or already the
      candidate's, and the candidate's last entry has a higher term, or the same and no lower index. */
  lemma VoteDecided(c: Core, req: VoteArgs)
    ensures var (c', reply) := HandleRequestVote(c, req);
            var (lastIndex, lastTerm) := LastOf(c);
            && (reply.granted <==>
                && req.term >= c.term
                && (req.term > c.term || c.votedFor == None || c.votedFor == Some(req.candidateId))
                && (req.lastLogTerm > lastTerm || (req.lastLogTerm == lastTerm && req.lastLogIndex >= lastIndex)))
            && reply.term == Max(req.term, c.term)
            && c' == c.(term := Max(req.term, c.term),
                     votedFor := if reply.granted then Some(req.candidateId)
                     else if req.term > c.term then None else c.votedFor,
                     role := if req.term > c.term then Follower else c.role)
  {
  }

  /** A candidate's own request gets the vote of a node exactly if it is in no older term, the node's vote is
      free or already its, and its log ends in a higher term, or in the same term and no earlier. */
  lemma VoteBetween(candidate: Core, voter: Core)
    ensures var end, own := LastOf(candidate), LastOf(voter);
            HandleRequestVote(voter, VoteRequest(candidate)).1.granted <==>
            && candidate.term >= voter.term
            && (candidate.term > voter.term || voter.votedFor == None || voter.votedFor == Some(candidate.id))
            && (end.1 > own.1 || (end.1 == own.1 && end.0 >= own.0))
  {
  }

  /** A candidate that hears of no higher term becomes leader exactly if the votes with this reply are more
      than half of the cluster. */
  lemma VoteCounted(c: Core, peer: nat, reply: VoteResult)
    ensures var (c', won) := HandleVoteResult(c, peer, reply);
            var votes := if reply.granted && peer !in c.votes then c.votes + [peer] else c.votes;
            && (won <==> c.role == Candidate && reply.term <= c.term && 2 * |votes| > 1 + |c.peers|)
            && (won ==> c'.role == Leader && c'.term == c.term && c'.votes == votes)
            && (!won ==> c' == if reply.term > c.term then c.(term := reply.term, votedFor := None, role := Follower)
                               else if c.role == Candidate then c.(votes := votes) else c)
  {
  }

  // ----- batches -----

  /** The entry that a batch names is there: nothing is named, or the snapshot ends with it, or the log has
      an entry of that term at that index. */
  predicate HasNamed(c: Core, index: nat, term: nat) {
    || index == 0
    || (index == c.snapIndex && term == c.snapTerm)
    || (c.snapIndex < index <= c.snapIndex + |c.log| && c.log[index - c.snapIndex - 1].term == term)
  }

  /** A batch is accepted exactly if its term is not old and the entry it names is there; a refused one
      leaves the log, and what is committed and applied, as it is. */
  lemma BatchDecided(rule: CommitRule, c: Core, req: AppendArgs)
    requires Contiguous(c.snapIndex, c.log)
    ensures var (c', reply) := HandleAppendEntries(rule, c, req);
            && (reply.success <==> req.term >= c.term && HasNamed(c, req.prevLogIndex, req.prevLogTerm))
            && reply.term == Max(req.term, c.term) == c'.term
            && (req.term >= c.term ==> c'.role == Follower)
            && c'.votedFor == (if req.term > c.term then None else c.votedFor)
            && (!reply.success ==>
                  c' == c.(term := c'.term, votedFor := c'.votedFor,
                  role := if req.term < c.term then c.role else Follower))
  {
    var c2 := StepDown(c, req.term).(role := Follower);
    CheckDecided(c2, req.prevLogIndex, req.prevLogTerm);
    var c3 := c2.(log := StoreEntries(c2.snapIndex, 0, c2.log, req.entries));
    ApplyKeepsRest(c3.(commit := NewCommit(rule, c3, req)));
    hide StoreEntries, ApplyCommitted, NewCommit, CheckPrev;
  }

  /** The hint of a refusal: where the log ends, or where the snapshot ends, or the first entry of the run of
      the conflicting term. */
  predicate RightHint(c: Core, n: nat, term: Option<nat>, index: Option<nat>) {
    var last := c.snapIndex + |c.log|;
    && index.Some?
    && (n > last ==> term == None && index == Some(last + 1))
    && (n == c.snapIndex ==> term == Some(c.snapTerm) && index == Some(c.snapIndex))
    && (n < c.snapIndex ==> term == None && index == Some(c.snapIndex + 1))
    && (c.snapIndex < n <= last ==>
          term == Some(c.log[n - c.snapIndex - 1].term) && StartsRun(c, term.value, index.value, n))
  }

  lemma CheckDecided(c: Core, n: nat, term: nat)
    requires Contiguous(c.snapIndex, c.log)
    ensures match CheckPrev(c, n, term)
            case Agrees => HasNamed(c, n, term)
            case Conflict(t, i) => !HasNamed(c, n, term) && RightHint(c, n, t, Some(i))
  {
    assert LastLogIndex(c) == c.snapIndex + |c.log|;
    if c.snapIndex < n <= c.snapIndex + |c.log| { RunStarts(c, c.log[n - c.snapIndex - 1].term, n); }
    hide FirstIndexOfRun, StartsRun;
  }

  /** A reply to an old term, or to an accepted batch, has no hint; any other has the right one. */
  lemma HintDecided(rule: CommitRule, c: Core, req: AppendArgs)
    requires Contiguous(c.snapIndex, c.log)
    ensures var reply := HandleAppendEntries(rule, c, req).1;
            if reply.success || req.term < c.term then reply.conflictTerm == None && reply.conflictIndex == None
            else RightHint(c, req.prevLogIndex, reply.conflictTerm, reply.conflictIndex)
  {
    var c2 := StepDown(c, req.term).(role := Follower);
    CheckDecided(c2, req.prevLogIndex, req.prevLogTerm);
    hide AcceptEntriesAt, CheckPrev;
  }

  /** All entries from index i to n have the term, and the one before i, if it is held, does not. */
  predicate StartsRun(c: Core, term: nat, i: nat, n: nat) {
    && c.snapIndex < i <= n <= c.snapIndex + |c.log|
    && (forall k | i - c.snapIndex - 1 <= k < n - c.snapIndex :: c.log[k].term == term)
    && (i > c.snapIndex + 1 ==> c.log[i - c.snapIndex - 2].term != term)
  }

  lemma {:induction false} RunStarts(c: Core, term: nat, n: nat)
    requires c.snapIndex < n <= c.snapIndex + |c.log| && c.log[n - c.snapIndex - 1].term == term
    ensures StartsRun(c, term, FirstIndexOfRun(c, term, n), n)
    decreases n
  {
    if n > c.snapIndex + 1 && c.log[n - c.snapIndex - 2].term == term { RunStarts(c, term, n - 1); }
  }

  /** An accepted batch is in the log afterwards, and if the leader's commit index is ahead, it is taken over as
      far as the log reaches or, by the other rule, as far as the batch does. */
  lemma AcceptDecided(rule: CommitRule, c: Core, req: AppendArgs)
    requires c.snapIndex == 0 && c.threshold == 0 && Contiguous(0, c.log)
    requires Contiguous(req.prevLogIndex, req.entries) && HandleAppendEntries(rule, c, req).1.success
    ensures var c', reach := HandleAppendEntries(rule, c, req).0, req.prevLogIndex + |req.entries|;
            && |c'.log| >= reach
            && c'.log[..req.prevLogIndex] == c.log[..req.prevLogIndex]
            && (forall k | 0 <= k < |req.entries| :: c'.log[req.prevLogIndex + k].term == req.entries[k].term)
            && c'.commit == (if req.leaderCommit <= c.commit then c.commit
                             else if rule == AsWritten then Min(req.leaderCommit, |c'.log|)
                             else Max(c.commit, Min(req.leaderCommit, reach)))
  {
    var prev := req.prevLogIndex;
    NamedIsThere(rule, c, req);
    var log := StoreEntries(0, 0, c.log, req.entries);
    StoredDecided(c.log, prev, req.entries);
    AcceptedIs(rule, c, req, log);
    hide StoreEntries, HandleAppendEntriesAt, CheckPrev, Contiguous, StepDown;
  }

  lemma NamedIsThere(rule: CommitRule, c: Core, req: AppendArgs)
    requires Contiguous(c.snapIndex, c.log) && HandleAppendEntries(rule, c, req).1.success
    ensures req.prevLogIndex <= c.snapIndex + |c.log|
  {
    BatchDecided(rule, c, req);
    hide HandleAppendEntriesAt;
  }

  lemma StoredDecided(log: Log, prev: nat, entries: Log)
    requires Contiguous(0, log) && Contiguous(prev, entries) && prev <= |log|
    ensures var log' := StoreEntries(0, 0, log, entries);
            && Contiguous(0, log') && |log'| >= prev + |entries| && log'[..prev] == log[..prev]
            && (forall k | 0 <= k < |entries| :: log'[prev + k].term == entries[k].term)
  {
    StoreEntriesIsMerge(0, log, prev, entries);
    MergeHolds(log, prev, entries);
    MergeContiguous(0, log, prev, entries);
  }

  lemma AcceptedIs(rule: CommitRule, c: Core, req: AppendArgs, log: Log)
    requires c.snapIndex == 0 && c.threshold == 0 && HandleAppendEntries(rule, c, req).1.success
    requires log == StoreEntries(0, 0, c.log, req.entries) && Contiguous(0, log)
    requires req.prevLogIndex + |req.entries| <= |log|
    ensures var c', reach := HandleAppendEntries(rule, c, req).0, req.prevLogIndex + |req.entries|;
            && c'.log == log
            && c'.commit == (if req.leaderCommit <= c.commit then c.commit
                             else if rule == AsWritten then Min(req.leaderCommit, |log|)
                             else Max(c.commit, Min(req.leaderCommit, reach)))
            && (req.leaderCommit > c.commit && c.applied <= c'.commit <= |log| ==> c'.applied == c'.commit)
  {
    FollowsAccepted(rule, StepDown(c, req.term).(role := Follower), req, log);
    hide AcceptEntriesAt, CheckPrev, StoreEntries, Contiguous;
  }

  lemma FollowsAccepted(rule: CommitRule, c: Core, req: AppendArgs, log: Log)
    requires c.snapIndex == 0 && c.threshold == 0 && log == StoreEntries(0, 0, c.log, req.entries) && Contiguous(0, log)
    ensures var c', reach := AcceptEntries(rule, c, req), req.prevLogIndex + |req.entries|;
            && c'.log == log
            && c'.commit == (if req.leaderCommit <= c.commit then c.commit
                             else if rule == AsWritten then Min(req.leaderCommit, |log|)
                             else Max(c.commit, Min(req.leaderCommit, reach)))
            && (req.leaderCommit > c.commit && c.applied <= c'.commit <= |log| ==> c'.applied == c'.commit)
  {
    var c2 := c.(log := log);
    var c3 := c2.(commit := NewCommit(rule, c2, req));
    assert LastLogIndex(c2) == |log|;
    ApplyUpToKeepsRest(c3);
    if c3.commit <= |log| { AppliesAll(c3); }
    hide ApplyUpTo, Contiguous, StoreEntries;
  }

  /** The leader's whole log from a common entry on: whoever accepts it holds every term of it, and has applied
      all that the leader says is committed. */
  lemma HeartbeatCatchesUp(rule: CommitRule, c: Core, req: AppendArgs, leaderLog: Log)
    requires c.snapIndex == 0 && c.threshold == 0 && Contiguous(0, c.log) && c.applied <= c.commit <= |c.log|
    requires Contiguous(0, leaderLog) && req.prevLogIndex <= |leaderLog| && req.leaderCommit <= |leaderLog|
    requires req.entries == leaderLog[req.prevLogIndex..] && HandleAppendEntries(rule, c, req).1.success
    ensures var c' := HandleAppendEntries(rule, c, req).0;
            && |c'.log| >= |leaderLog|
            && (forall k | req.prevLogIndex <= k < |leaderLog| :: c'.log[k].term == leaderLog[k].term)
            && c'.commit == Max(c.commit, req.leaderCommit)
            && (req.leaderCommit > c.commit ==> c'.applied == c'.commit)
  {
    SuffixContiguous(0, leaderLog, req.prevLogIndex);
    AcceptDecided(rule, c, req);
    NamedIsThere(rule, c, req);
    var c' := HandleAppendEntries(rule, c, req).0;
    forall k | req.prevLogIndex <= k < |leaderLog| ensures c'.log[k].term == leaderLog[k].term {
      assert leaderLog[k] == req.entries[k - req.prevLogIndex];
      assert c'.log[req.prevLogIndex + (k - req.prevLogIndex)].term == req.entries[k - req.prevLogIndex].term;
    }
    StoredDecided(c.log, req.prevLogIndex, req.entries);
    AcceptedIs(rule, c, req, StoreEntries(0, 0, c.log, req.entries));
    hide StoreEntries, HandleAppendEntriesAt, CheckPrev, Contiguous, StepDown;
  }

  // ----- replies -----

  /** What a leader that hears of no higher term has recorded of its peers after a reply. */
  function AckedAfter(c: Core, peer: nat, index: nat, success: bool): map<nat, nat> {
    if success && index > Lookup(c.acked, peer, 0) then c.acked[peer := index] else c.acked
  }

  /** The peers known to hold the entry at an index. */
  function Holding(acked: map<nat, nat>, index: nat): set<nat> { set p | p in acked && acked[p] >= index }

  lemma RecordDecided(c: Core, peer: nat, index: nat, reply: AppendResult)
    ensures var c' := RecordReply(c, peer, index, reply);
            && c' == c.(acked := AckedAfter(c, peer, index, reply.success), next := c'.next)
            && (reply.success ==> c'.next == if index > 0 then c.next[peer := index + 1] else c.next)
  {
    hide NextAfterRejection;
  }

  /** An entry commits exactly if it has the leader's term, is not committed yet, and more than half of the
      cluster holds it, the leader and the peer of this reply included; no other reply moves the commit
      index. */
  lemma ReplyDecided(c: Core, peer: nat, index: nat, reply: AppendResult)
    ensures var c' := HandleAppendResult(c, peer, index, reply);
            var acked := AckedAfter(c, peer, index, reply.success);
            var leads := c.role == Leader && reply.term <= c.term;
            var commits := && leads && index > c.commit
                           && c.snapIndex < index <= c.snapIndex + |c.log|
                           && c.log[index - c.snapIndex - 1].term == c.term
                           && 2 * (1 + |Holding(acked, index)|) > 1 + |c.peers|;
            && c'.commit == (if commits then index else c.commit)
            && (leads ==> c'.role == Leader && c'.term == c.term && c'.acked == acked)
            && (reply.term > c.term ==> c' == c.(term := reply.term, votedFor := None, role := Follower))
            && (!leads && reply.term <= c.term ==> c' == c)
            && (leads && !commits ==> c' == c.(acked := acked, next := c'.next))
            && (leads && reply.success ==> c'.next == if index > 0 then c.next[peer := index + 1] else c.next)
  {
    RecordDecided(c, peer, index, reply);
    var c1 := RecordReply(c, peer, index, reply);
    CommitDecided(c1, index);
    hide RecordReply, CommitCounted;
  }

  lemma CommitDecided(c: Core, index: nat)
    ensures var c' := CommitCounted(c, index);
            var commits := && index > c.commit && c.snapIndex < index <= c.snapIndex + |c.log|
                           && c.log[index - c.snapIndex - 1].term == c.term
                           && 2 * (1 + |Holding(c.acked, index)|) > 1 + |c.peers|;
            && c'.commit == (if commits then index else c.commit)
            && (!commits ==> c' == c)
            && c'.role == c.role && c'.term == c.term && c'.acked == c.acked && c'.next == c.next
  {
    AppliedIs(c.(commit := index));
    hide ApplyCommitted;
    assert Replicated(c.acked, index) == Holding(c.acked, index);
  }

  /** The search for a term finds its last entry, or the snapshot that ends with it, or nothing if neither is
      there. */
  lemma SearchDecided(c: Core, term: nat)
    requires Contiguous(c.snapIndex, c.log) && Rising(c.log)
    ensures var found := LastIndexForTerm(c, term);
            && (found.Some? <==> (exists e :: e in c.log && e.term == term) || (c.snapIndex > 0 && c.snapTerm == term))
            && (found.Some? && found.value > c.snapIndex ==>
                  && found.value <= c.snapIndex + |c.log| && c.log[found.value - c.snapIndex - 1].term == term
                  && forall k | found.value - c.snapIndex <= k < |c.log| :: c.log[k].term != term)
            && (found.Some? && found.value <= c.snapIndex ==>
                  found.value == c.snapIndex && forall e <- c.log :: e.term != term)
  {
    LastInLog(c.snapIndex, c.log, |c.log|, term);
  }

  lemma {:induction false} LastInLog(base: nat, log: Log, n: nat, term: nat)
    requires Contiguous(base, log) && Rising(log) && n <= |log|
    ensures match LastIndexInLog(log, n, term)
            case Some(i) => base < i <= base + n && log[i - base - 1].term == term
                            && forall k | i - base <= k < n :: log[k].term != term
            case None => forall k | 0 <= k < n :: log[k].term != term
    decreases n
  {
    if n > 0 && log[n - 1].term > term { LastInLog(base, log, n - 1, term); }
  }

  /** After a refusal the leader goes back by at least one, to the entry after the last of the conflicting term
      if it has one, else to where the hint says. */
  lemma RefusalDecided(c: Core, peer: nat, index: nat, reply: AppendResult)
    requires !reply.success && c.role == Leader && reply.term <= c.term
    ensures var current := Lookup(c.next, peer, 1);
            var found := if reply.conflictTerm.Some? then LastIndexForTerm(c, reply.conflictTerm.value) else None;
            var wanted := if found.Some? then found.value + 1
                          else if reply.conflictIndex.Some? then reply.conflictIndex.value
                          else if reply.conflictTerm.Some? || current == 0 then 1 else current - 1;
            HandleAppendResult(c, peer, index, reply).next
            == c.next[peer := Max(1, if current > 0 then Min(wanted, current - 1) else 0)]
  {
    var c1 := RecordReply(c, peer, index, reply);
    CommitDecided(c1, index);
    hide CommitCounted, LastIndexForTerm;
  }

  /** Only a leader takes a command, and it then is the last entry, of the leader's term. */
  lemma CommandDecided(c: Core, command: string)
    requires Contiguous(c.snapIndex, c.log)
    ensures AppendCommand(c, command).Some? <==> c.role == Leader
    ensures c.role == Leader ==>
              AppendCommand(c, command).value
              == c.(log := c.log + [Entry(c.term, c.snapIndex + |c.log| + 1, command)])
  {
    assert LastLogIndex(c) == c.snapIndex + |c.log|;
  }

  // ----- applying and snapshots -----

  /** A snapshot can be taken exactly if something is applied that the last one does not cover; it then
      covers what is applied, and the entries after it stay. */
  lemma SnapshotDecided(c: Core)
    requires Contiguous(c.snapIndex, c.log) && c.snapIndex <= c.applied <= c.snapIndex + |c.log|
    ensures TakeSnapshot(c).Some? <==> c.applied > c.snapIndex
    ensures c.applied > c.snapIndex ==>
              TakeSnapshot(c).value == c.(snapIndex := c.applied, log := c.log[c.applied - c.snapIndex..],
              snapTerm := c.log[c.applied - c.snapIndex - 1].term)
  {
    EntriesFromIsSlice(c.snapIndex, c.log, c.applied + 1);
  }

  /** What applying leaves alone. */
  lemma AppliedIs(c: Core)
    ensures var c' := ApplyCommitted(c);
            c' == c.(applied := c'.applied, data := c'.data, snapIndex := c'.snapIndex, snapTerm := c'.snapTerm,
            log := c'.log)
  {
    ApplyUpToKeepsRest(c);
  }

  lemma {:induction false} AppliesAll(c: Core)
    requires c.snapIndex <= c.applied && c.commit <= c.snapIndex + |c.log|
    ensures ApplyUpTo(c).applied == Max(c.applied, c.commit)
    decreases c.commit - c.applied
  {
    hide KvStore.ApplyCommand;
    ApplyUpToUnfolds(c);
    if c.applied < c.commit {
      AppliesAll(Applied(c, GetEntry(c, c.applied + 1).value));
    }
  }

  /** If all committed entries are there, they are applied; and exactly if that makes as many since the last
      snapshot as the threshold says, the next snapshot is taken. */
  lemma CompactionDecided(c: Core)
    requires Contiguous(c.snapIndex, c.log)
    requires c.snapIndex <= c.applied <= c.snapIndex + |c.log| && c.commit <= c.snapIndex + |c.log|
    ensures var c' := ApplyCommitted(c);
            var since := Max(c.applied, c.commit) - c.snapIndex;
            && c'.applied == Max(c.applied, c.commit)
            && (if c.threshold > 0 && since > 0 && since >= c.threshold
                then c'.snapIndex == c'.applied && c'.log == c.log[since..] && c'.snapTerm == c.log[since - 1].term
                else c'.snapIndex == c.snapIndex && c'.log == c.log && c'.snapTerm == c.snapTerm)
  {
    AppliesAll(c);
    ApplyUpToKeepsRest(c);
    SnapshotDecided(ApplyUpTo(c));
    hide ApplyUpTo, TakeSnapshot;
  }

  /** Fewer new entries than the threshold leave snapshot and log alone. */
  lemma FewEntriesStay(c: Core)
    requires Contiguous(c.snapIndex, c.log)
    requires c.snapIndex <= c.applied <= c.snapIndex + |c.log| && c.commit <= c.snapIndex + |c.log|
    requires Max(c.applied, c.commit) < c.snapIndex + c.threshold
    ensures ApplyCommitted(c).snapIndex == c.snapIndex && ApplyCommitted(c).log == c.log
  {
    CompactionDecided(c);
  }

  /** What is left of the log after a snapshot up to index k. */
  lemma LeftAfter(base: nat, log: Log, k: nat)
    requires Contiguous(base, log) && k > base
    ensures EntriesFrom(log, k + 1) == if k < base + |log| then log[k - base..] else []
  {
    EntriesFromIsSlice(base, log, k + 1);
    hide EntriesFrom;
  }

  /** A sent snapshot is installed exactly if its term is not old and it reaches further than the node's own;
      the term and its vote and role are taken over in any case, and a refusal leaves the rest alone. */
  lemma InstallDecided(c: Core, args: InstallArgs)
    requires Contiguous(c.snapIndex, c.log)
    ensures var (c', reply) := InstallSnapshot(c, args);
            && (reply.Installed? <==> args.term >= c.term && args.snapshot.lastIndex > c.snapIndex)
            && reply.term == Max(args.term, c.term)
            && c' == if reply.Installed? then With(Heeded(c, args.term), args.snapshot) else Heeded(c, args.term)
  {
    if args.snapshot.lastIndex > c.snapIndex { LeftAfter(c.snapIndex, c.log, args.snapshot.lastIndex); }
    hide EntriesFrom, Contiguous;
  }

  /** The node after a message of a term. */
  function Heeded(c: Core, term: nat): Core {
    c.(term := Max(term, c.term), votedFor := if term > c.term then None else c.votedFor,
    role := if term > c.term then Follower else c.role)
  }

  /** The node with a further snapshot: the log loses what it covers, the data is the snapshot's, and what is
      committed and applied reaches at least as far. */
  function With(c: Core, s: Snapshot): Core
    requires s.lastIndex > c.snapIndex
  {
    c.(snapIndex := s.lastIndex, snapTerm := s.lastTerm, data := s.data,
    log := if s.lastIndex < c.snapIndex + |c.log| then c.log[s.lastIndex - c.snapIndex..] else [],
    commit := Max(c.commit, s.lastIndex), applied := Max(c.applied, s.lastIndex))
  }
}
