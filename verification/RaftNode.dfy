/** The requests a node sends (src/core/raft_node.rs:41-236) and the counting of votes. The replies of
    one call come as a sequence in the order they arrive, None for a request that failed. */
module RaftNode {
  import opened Types
  import opened Collections
  import opened CoreSteps
  import opened Batch
  import opened RaftCore
  import opened SnapshotLayer
  import opened Decisions

  datatype Arrival = Arrival(peer: nat, reply: Option<AppendResult>)

  datatype Request = Append(args: AppendArgs, lastIndex: nat) | Install(install: InstallArgs)

  /** Replies come from peers, one from each. */
  predicate OneEach(peers: seq<nat>, arrivals: seq<Arrival>) {
    && (forall a <- arrivals :: a.peer in peers)
    && forall j, k | 0 <= j < k < |arrivals| :: arrivals[j].peer != arrivals[k].peer
  }

  // ----- requests -----

  /** What a heartbeat sends to one peer: the snapshot if the peer needs compacted entries. */
  function HeartbeatRequest(c: Core, saved: Option<Snapshot>, peer: nat): Option<Request> {
    if NextFor(c, peer) <= c.snapIndex then
      if saved.Some? then Some(Install(InstallArgs(c.term, c.id, saved.value))) else None
    else Some(Append(AppendRequest(c, peer, HeartbeatEntries(c, peer)), HeartbeatIndex(c, peer)))
  }

  method VoteRequests(core: RaftCore) returns (requests: seq<(nat, VoteArgs)>)
    ensures |requests| == |core.peers|
    ensures forall k | 0 <= k < |requests| :: requests[k] == (core.peers[k], VoteRequest(core.State()))
  {
    var args := VoteArgs(core.term, core.id, LastLogIndex(core.State()), LastLogTerm(core.State()));
    requests := [];
    for i := 0 to |core.peers|
      invariant |requests| == i
      invariant forall k | 0 <= k < i :: requests[k] == (core.peers[k], args)
    {
      requests := requests + [(core.peers[i], args)];
    }
  }

  /** For each peer the entries from its next index up to the submitted one. */
  method Replications(core: RaftCore, index: nat) returns (requests: seq<(nat, AppendArgs)>)
    ensures |requests| == |core.peers|
    ensures forall k | 0 <= k < |requests| ::
              var p := core.peers[k];
              requests[k] == (p, AppendRequest(core.State(), p, SubmitEntries(core.State(), p, index)))
  {
    requests := [];
    var c := core.State();
    for i := 0 to |core.peers|
      invariant |requests| == i
      invariant forall k | 0 <= k < i ::
          var p := core.peers[k];
          requests[k] == (p, AppendRequest(c, p, SubmitEntries(c, p, index)))
    {
      var peer := core.peers[i];
      var entries := EntriesUpTo(EntriesFrom(core.log, NextFor(c, peer)), index);
      requests := requests + [(peer, AppendRequest(c, peer, entries))];
    }
  }

  /** Requests are skipped for peers whose snapshot cannot be loaded. */
  method Heartbeats(core: RaftCore) returns (requests: seq<(nat, Request)>)
    ensures core.role != Leader ==> requests == []
    ensures core.role == Leader ==> requests == AllHeartbeats(core.State(), core.storage.snapshot, |core.peers|)
  {
    requests := [];
    if core.role != Leader {
      return;
    }
    var c := core.State();
    for i := 0 to |core.peers|
      invariant requests == AllHeartbeats(c, core.storage.snapshot, i)
    {
      var peer := core.peers[i];
      if NextFor(c, peer) <= core.snapIndex {
        if core.storage.snapshot.Some? {
          requests := requests + [(peer, Install(InstallArgs(core.term, core.id, core.storage.snapshot.value)))];
        }
        continue;
      }
      var entries := EntriesFrom(core.log, NextFor(c, peer));
      var lastIndex := if entries == [] then 0 else entries[|entries| - 1].index;
      requests := requests + [(peer, Append(AppendRequest(c, peer, entries), lastIndex))];
    }
  }

  function AllHeartbeats(c: Core, saved: Option<Snapshot>, n: nat): seq<(nat, Request)>
    requires n <= |c.peers|
  {
    if n == 0 then []
    else
      var request := HeartbeatRequest(c, saved, c.peers[n - 1]);
      AllHeartbeats(c, saved, n - 1) + if request.Some? then [(c.peers[n - 1], request.value)] else []
  }

  lemma EntriesFromOfWhole(whole: seq<Entry>, c: Core, prev: nat)
    requires Represents(whole, c) && prev <= |whole|
    ensures EntriesFrom(c.log, prev + 1) == whole[Max(prev, c.snapIndex)..]
  {
    EntriesFromIsSlice(c.snapIndex, c.log, prev + 1);
    var k := Max(prev, c.snapIndex);
    assert c.log[k - c.snapIndex..] == whole[k..];
  }

  lemma PrevTermOfWhole(whole: seq<Entry>, c: Core, prev: nat)
    requires Represents(whole, c) && c.snapIndex <= prev <= |whole|
    ensures PrevTerm(c, prev) == TermAt(whole, prev)
  {
    if prev > c.snapIndex { assert c.log[prev - c.snapIndex - 1] == whole[prev - 1]; }
  }

  lemma SubmitEntriesOfWhole(whole: seq<Entry>, c: Core, peer: nat, index: nat)
    requires Represents(whole, c) && 1 <= NextFor(c, peer) <= |whole| + 1 && index <= |whole|
    ensures var low := Max(NextFor(c, peer) - 1, c.snapIndex);
            SubmitEntries(c, peer, index) == whole[low..Max(low, index)]
  {
    var low := Max(NextFor(c, peer) - 1, c.snapIndex);
    EntriesFromOfWhole(whole, c, NextFor(c, peer) - 1);
    hide EntriesFrom, EntriesUpTo, NextFor;
    assert EntriesFrom(c.log, NextFor(c, peer)) == whole[low..] && Contiguous(0, whole) && low <= |whole|;
    hide Represents, Contiguous;
    UpToOfSuffix(whole, low, index);
  }

  lemma UpToOfSuffix(whole: seq<Entry>, low: nat, index: nat)
    requires Contiguous(0, whole) && low <= |whole| && index <= |whole|
    ensures EntriesUpTo(whole[low..], index) == whole[low..Max(low, index)]
  {
    var rest, n := whole[low..], Max(low, index) - low;
    SuffixContiguous(0, whole, low);
    EntriesUpToIsSlice(low, rest, index);
    hide EntriesUpTo, Contiguous;
    assert EntriesUpTo(rest, index) == rest[..n];
    SliceOfSlice(whole, low, Max(low, index));
  }

  lemma SliceOfSlice<T>(s: seq<T>, low: nat, high: nat)
    requires low <= high <= |s|
    ensures s[low..][..high - low] == s[low..high]
  {
  }

  /** A heartbeat never has a gap: it names the entry of the whole log before the batch, which then is
      all the rest of the log; a peer that needs compacted entries is sent the snapshot. */
  lemma HeartbeatHasNoGap(whole: seq<Entry>, c: Core, saved: Option<Snapshot>, peer: nat)
    requires Represents(whole, c) && NextFor(c, peer) <= |whole| + 1
    requires saved.Some? && c.snapIndex > 0 ==> saved.value.lastIndex == c.snapIndex
    ensures match HeartbeatRequest(c, saved, peer)
            case None => NextFor(c, peer) <= c.snapIndex && saved.None?
            case Some(Install(args)) =>
              && NextFor(c, peer) <= c.snapIndex && (c.snapIndex > 0 ==> args.snapshot.lastIndex >= NextFor(c, peer))
              && (args.term, args.leaderId) == (c.term, c.id) && saved == Some(args.snapshot)
            case Some(Append(args, last)) =>
              && c.snapIndex <= args.prevLogIndex <= |whole| && args.prevLogTerm == TermAt(whole, args.prevLogIndex)
              && args.prevLogIndex == NextFor(c, peer) - 1
              && args.entries == whole[args.prevLogIndex..] && Contiguous(args.prevLogIndex, args.entries)
              && (args.term, args.leaderId, args.leaderCommit) == (c.term, c.id, c.commit)
              && last == if args.prevLogIndex < |whole| then |whole| else 0
  {
    if NextFor(c, peer) > c.snapIndex { HeartbeatOfWhole(whole, c, peer); }
    hide AppendRequest, HeartbeatEntries, HeartbeatIndex, Represents;
  }

  lemma HeartbeatOfWhole(whole: seq<Entry>, c: Core, peer: nat)
    requires Represents(whole, c) && c.snapIndex < NextFor(c, peer) <= |whole| + 1
    ensures var prev, args := NextFor(c, peer) - 1, AppendRequest(c, peer, HeartbeatEntries(c, peer));
            && args == AppendArgs(c.term, c.id, prev, TermAt(whole, prev), whole[prev..], c.commit)
            && Contiguous(prev, whole[prev..])
            && HeartbeatIndex(c, peer) == if prev < |whole| then |whole| else 0
  {
    var prev := NextFor(c, peer) - 1;
    EntriesFromOfWhole(whole, c, prev);
    PrevTermOfWhole(whole, c, prev);
    SuffixContiguous(0, whole, prev);
    hide EntriesFrom, PrevTerm, TermAt, NextFor;
  }

  /** A new leader's first heartbeat goes to every peer alike: its no-op, right after the last entry it had. */
  lemma FirstHeartbeat(c: Core, saved: Option<Snapshot>, peer: nat)
    requires Contiguous(c.snapIndex, c.log) && peer in c.peers
    ensures var (lastIndex, lastTerm) := LastOf(c);
            var noop := Entry(c.term, lastIndex + 1, NOOP_COMMAND);
            HeartbeatRequest(BecomeLeader(c), saved, peer)
            == Some(Append(AppendArgs(c.term, c.id, lastIndex, lastTerm, [noop], c.commit), lastIndex + 1))
  {
    var c', n := BecomeLeader(c), c.snapIndex + |c.log|;
    FirstEntries(c);
    assert NextFor(c', peer) == n + 1;
    hide EntriesFrom, BecomeLeader;
  }

  lemma FirstEntries(c: Core)
    requires Contiguous(c.snapIndex, c.log)
    ensures var n, noop := c.snapIndex + |c.log|, Entry(c.term, c.snapIndex + |c.log| + 1, NOOP_COMMAND);
            var c' := BecomeLeader(c);
            && LastOf(c).0 == n && PrevTerm(c', n) == LastOf(c).1
            && EntriesFrom(c'.log, n + 1) == [noop]
            && c' == c.(role := Leader, next := c'.next, acked := c'.acked, log := c.log + [noop])
  {
    OnlyLast(c.snapIndex, c.log, Entry(c.term, c.snapIndex + |c.log| + 1, NOOP_COMMAND));
    hide EntriesFrom;
  }

  lemma OnlyLast(base: nat, log: seq<Entry>, e: Entry)
    requires Contiguous(base, log) && e.index == base + |log| + 1
    ensures EntriesFrom(log + [e], e.index) == [e]
  {
    EntriesFromIsSlice(base, log + [e], e.index);
    assert (log + [e])[|log|..] == [e];
  }

  /** Positions of the first n peers for which there is a request. */
  function Served(c: Core, saved: Option<Snapshot>, n: nat): set<nat>
    requires n <= |c.peers|
  {
    set k | 0 <= k < n && HeartbeatRequest(c, saved, c.peers[k]).Some?
  }

  predicate IsServed(c: Core, saved: Option<Snapshot>, n: nat, sent: (nat, Request))
    requires n <= |c.peers|
  {
    exists k :: 0 <= k < n && c.peers[k] == sent.0 && HeartbeatRequest(c, saved, sent.0) == Some(sent.1)
  }

  /** Every peer gets its request once, and nobody else gets one. */
  lemma {:induction false} HeartbeatForEach(c: Core, saved: Option<Snapshot>, n: nat)
    requires n <= |c.peers|
    ensures |AllHeartbeats(c, saved, n)| == |Served(c, saved, n)|
    ensures forall sent :: sent in AllHeartbeats(c, saved, n) <==> IsServed(c, saved, n, sent)
    decreases n
  {
    ServedStep(c, saved, n);
    hide HeartbeatRequest, Served;
    if n > 0 {
      HeartbeatForEach(c, saved, n - 1);
      forall sent { IsServedStep(c, saved, n, sent); }
      hide IsServed;
    }
  }

  lemma IsServedStep(c: Core, saved: Option<Snapshot>, n: nat, sent: (nat, Request))
    requires 0 < n <= |c.peers|
    ensures IsServed(c, saved, n, sent) <==>
            IsServed(c, saved, n - 1, sent)
            || (c.peers[n - 1] == sent.0 && HeartbeatRequest(c, saved, c.peers[n - 1]) == Some(sent.1))
  {
    hide HeartbeatRequest;
  }

  lemma ServedStep(c: Core, saved: Option<Snapshot>, n: nat)
    requires n <= |c.peers|
    ensures Served(c, saved, 0) == {}
    ensures n > 0 ==> |Served(c, saved, n)| == |Served(c, saved, n - 1)|
                                               + if HeartbeatRequest(c, saved, c.peers[n - 1]).Some? then 1 else 0
  {
    hide HeartbeatRequest;
    if n > 0 {
      assert Served(c, saved, n) == Served(c, saved, n - 1)
                                    + if HeartbeatRequest(c, saved, c.peers[n - 1]).Some? then {n - 1} else {};
    }
  }

  /** The replication of a submitted entry does not look at the snapshot: its batch goes on from the
      entry it names exactly when the peer needs no compacted entry. */
  lemma ReplicationHasNoGapIff(whole: seq<Entry>, c: Core, peer: nat, index: nat)
    requires Represents(whole, c) && 1 <= NextFor(c, peer) <= |whole| + 1 && c.snapIndex < index <= |whole|
    ensures var req := AppendRequest(c, peer, SubmitEntries(c, peer, index));
            Contiguous(req.prevLogIndex, req.entries) <==> NextFor(c, peer) > c.snapIndex
  {
    SubmitEntriesOfWhole(whole, c, peer, index);
    var low := Max(NextFor(c, peer) - 1, c.snapIndex);
    var entries := SubmitEntries(c, peer, index);
    if low < index { assert entries[0] == whole[low]; }
  }

  lemma {:induction false} EntriesUpToIsSlice(base: nat, log: seq<Entry>, high: nat)
    requires Contiguous(base, log)
    ensures EntriesUpTo(log, high) == log[..Min(if high > base then high - base else 0, |log|)]
    decreases |log|
  {
    if log != [] {
      var n := |log| - 1;
      EntriesUpToIsSlice(base, log[..n], high);
      assert log[n].index == base + 1 + n;
      var k := if high > base then high - base else 0;
      if k <= n {
        assert log[..n][..k] == log[..k];
      } else {
        assert log[..n] + [log[n]] == log[..|log|];
      }
    }
  }

  // ----- elections -----

  /** Votes are counted until the node wins. */
  function CountVotes(c: Core, replies: seq<(nat, Option<VoteResult>)>): (Core, bool)
    decreases |replies|
  {
    if replies == [] then (c, false)
    else
      var (peer, reply) := replies[0];
      if reply.None? then CountVotes(c, replies[1..])
      else
        var (c', won) := HandleVoteResult(c, peer, reply.value);
        if won then (c', true) else CountVotes(c', replies[1..])
  }

  method RequestVotes(core: RaftCore, replies: seq<(nat, Option<VoteResult>)>) returns (won: bool)
    requires core.Valid()
    modifies core, core.storage
    ensures core.Valid()
    ensures (core.State(), won) == CountVotes(old(core.State()), replies)
  {
    for i := 0 to |replies|
      invariant core.Valid()
      invariant CountVotes(core.State(), replies[i..]) == CountVotes(old(core.State()), replies)
    {
      var (peer, reply) := replies[i];
      assert replies[i..][1..] == replies[i + 1..];
      if reply.Some? {
        var elected := core.HandleRequestVoteResult(peer, reply.value);
        if elected {
          return true;
        }
      }
    }
    won := false;
  }

  /** Peers whose votes arrived granted. */
  function Granted(replies: seq<(nat, Option<VoteResult>)>): set<nat> {
    set k | 0 <= k < |replies| && replies[k].1.Some? && replies[k].1.value.granted :: replies[k].0
  }

  lemma GrantedRest(replies: seq<(nat, Option<VoteResult>)>)
    requires replies != []
    ensures forall v <- Granted(replies[1..]) :: v in Granted(replies)
    ensures replies[0].1.Some? && replies[0].1.value.granted ==> replies[0].0 in Granted(replies)
  {
    var rest := replies[1..];
    forall v | v in Granted(rest) ensures v in Granted(replies) {
      var k :| 0 <= k < |rest| && rest[k].1.Some? && rest[k].1.value.granted && rest[k].0 == v;
      assert replies[k + 1] == rest[k];
    }
  }

  /** A node that wins has the votes of a majority, its own and others that arrived granted. */
  lemma {:induction false} WinnerHasMajority(c: Core, replies: seq<(nat, Option<VoteResult>)>)
    requires c.role == Candidate && Distinct(c.votes)
    ensures var (c', won) := CountVotes(c, replies);
            won ==> c'.role == Leader && c'.term == c.term && Distinct(c'.votes)
                    && 2 * |c'.votes| > 1 + |c.peers|
                    && forall v <- c'.votes :: v in c.votes || v in Granted(replies)
    decreases |replies|
  {
    if replies != [] && CountVotes(c, replies).1 {
      var (peer, reply) := replies[0];
      var rest := replies[1..];
      GrantedRest(replies);
      hide Granted;
      if reply.None? {
        WinnerHasMajority(c, rest);
      } else {
        var (c1, won) := HandleVoteResult(c, peer, reply.value);
        if !won {
          if c1.role == Candidate {
            WinnerHasMajority(c1, rest);
          } else {
            LosersStay(c1, rest);
          }
        }
      }
    }
  }

  lemma {:induction false} LosersStay(c: Core, replies: seq<(nat, Option<VoteResult>)>)
    requires c.role != Candidate
    ensures !CountVotes(c, replies).1
    decreases |replies|
  {
    if replies != [] {
      var (peer, reply) := replies[0];
      LosersStay(if reply.None? then c else HandleVoteResult(c, peer, reply.value).0, replies[1..]);
    }
  }

  /** The replies before the first that carries a term above the node's. */
  function UpToHigher(term: nat, replies: seq<(nat, Option<VoteResult>)>): seq<(nat, Option<VoteResult>)> {
    if replies == [] || (replies[0].1.Some? && replies[0].1.value.term > term) then []
    else [replies[0]] + UpToHigher(term, replies[1..])
  }

  predicate AnyArrived(replies: seq<(nat, Option<VoteResult>)>) { exists r <- replies :: r.1.Some? }

  lemma GrantedSplit(first: (nat, Option<VoteResult>), rest: seq<(nat, Option<VoteResult>)>)
    ensures Granted([first] + rest) ==
            Granted(rest) + if first.1.Some? && first.1.value.granted then {first.0} else {}
    ensures AnyArrived([first] + rest) <==> first.1.Some? || AnyArrived(rest)
    ensures !AnyArrived(rest) ==> Granted(rest) == {}
  {
    var all := [first] + rest;
    GrantedRest(all);
    assert all[1..] == rest;
    forall v | v in Granted(all)
      ensures v in Granted(rest) || (first.1.Some? && first.1.value.granted && v == first.0)
    {
      var k :| 0 <= k < |all| && all[k].1.Some? && all[k].1.value.granted && all[k].0 == v;
      if k > 0 { assert rest[k - 1] == all[k]; }
    }
    assert AnyArrived(rest) ==> AnyArrived(all) by {
      if r :| r in rest && r.1.Some? { assert r in all; }
    }
  }

  lemma VoteAdded(votes: seq<nat>, peer: nat)
    requires Distinct(votes) && peer !in votes
    ensures Distinct(votes + [peer]) && SetOf(votes + [peer]) == SetOf(votes) + {peer}
  {
  }

  lemma VoteSets(votes: seq<nat>, peer: nat, granted: bool, later: set<nat>)
    requires Distinct(votes)
    ensures var votes' := if granted && peer !in votes then votes + [peer] else votes;
            && Distinct(votes')
            && SetOf(votes') + later == SetOf(votes) + (later + if granted then {peer} else {})
            && |SetOf(votes') + later| >= |votes'|
            && (later == {} ==> |SetOf(votes') + later| == |votes'|)
  {
    var votes' := if granted && peer !in votes then votes + [peer] else votes;
    if peer !in votes { VoteAdded(votes, peer); } else { assert peer in SetOf(votes); }
    var extra := if granted then {peer} else {};
    assert Distinct(votes') && SetOf(votes') == SetOf(votes) + extra;
    hide Distinct, SetOf;
    DistinctSize(votes');
    WithLater(SetOf(votes), extra, later);
  }

  lemma WithLater(s: set<nat>, extra: set<nat>, later: set<nat>)
    ensures s + extra + later == s + (later + extra) && |s + extra + later| >= |s + extra|
    ensures later == {} ==> s + extra + later == s + extra
  {
    SubsetSize(s + extra, s + extra + later);
  }

  /** The votes a candidate has, those granted in the replies included, are more than half of the cluster. */
  predicate Enough(c: Core, granted: set<nat>) { 2 * |SetOf(c.votes) + granted| > 1 + |c.peers| }

  /** One reply that does not raise the term: a win if that is enough, else the votes with it go on. */
  lemma OneVote(c: Core, peer: nat, reply: VoteResult, later: set<nat>)
    requires c.role == Candidate && Distinct(c.votes) && reply.term <= c.term
    ensures var (c', won) := HandleVoteResult(c, peer, reply);
            var granted := later + if reply.granted then {peer} else {};
            && (won ==> Enough(c, granted))
            && (!won ==>
                  && c'.role == Candidate && c'.term == c.term && Distinct(c'.votes)
                  && (Enough(c', later) <==> Enough(c, granted))
                  && (later == {} ==> !Enough(c', later)))
  {
    VoteCounted(c, peer, reply);
    VoteSets(c.votes, peer, reply.granted, later);
    hide HandleVoteResult, SetOf, Distinct;
  }

  /** A candidate wins exactly if some reply arrives before any of a higher term, and with those granted by
      then its votes are enough; requests that fail are passed over. */
  lemma {:induction false} ElectionDecided(c: Core, replies: seq<(nat, Option<VoteResult>)>)
    requires c.role == Candidate && Distinct(c.votes)
    ensures var heard := UpToHigher(c.term, replies);
            CountVotes(c, replies).1 <==> AnyArrived(heard) && Enough(c, Granted(heard))
    decreases |replies|
  {
    assert !AnyArrived([]);
    hide HandleVoteResult, Granted, SetOf, Distinct, AnyArrived, Enough;
    if replies != [] {
      var (peer, reply) := replies[0];
      var rest := replies[1..];
      var heard := UpToHigher(c.term, rest);
      GrantedSplit(replies[0], heard);
      if reply.None? {
        ElectionDecided(c, rest);
      } else if reply.value.term > c.term {
        VoteCounted(c, peer, reply.value);
        LosersStay(HandleVoteResult(c, peer, reply.value).0, rest);
      } else {
        OneVote(c, peer, reply.value, Granted(heard));
        var (c1, won) := HandleVoteResult(c, peer, reply.value);
        if !won { ElectionDecided(c1, rest); }
      }
    }
  }

  /** An election from its start: a new term, the node's own vote, and with it the votes granted. */
  lemma CandidacyDecided(c: Core, replies: seq<(nat, Option<VoteResult>)>)
    ensures var c1 := StartElection(c);
            var heard := UpToHigher(c.term + 1, replies);
            && (c1.term, c1.votedFor, c1.log, c1.commit) == (c.term + 1, Some(c.id), c.log, c.commit)
            && (CountVotes(c1, replies).1 <==>
                AnyArrived(heard) && 2 * |{c.id} + Granted(heard)| > 1 + |c.peers|)
  {
    var c1 := StartElection(c);
    assert SetOf(c1.votes) == {c.id};
    ElectionDecided(c1, replies);
    hide CountVotes, Granted, AnyArrived, UpToHigher;
  }
}
