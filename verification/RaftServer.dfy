/** The server's operations (src/core/raft_server.rs:212-314) and the confirmation of leadership they
    use (src/core/raft_node.rs:318-384), one at a time on one node. */
module RaftServer {
  import opened Types
  import opened Collections
  import opened CoreSteps
  import opened Batch
  import opened Applying
  import opened RaftCore
  import opened RaftNode
  import opened SnapshotLayer
  import opened SnapshotRuns
  import opened Decisions
  import KvStore

  // ----- submitting a command -----

  datatype SubmitResult = Answered(outcome: KvStore.Outcome) | NotLeader | InvalidCommand | NotCommitted

  function ResultFor(results: seq<(nat, KvStore.Outcome)>, index: nat): Option<KvStore.Outcome> {
    if results == [] then None
    else if results[|results| - 1].0 == index then Some(results[|results| - 1].1)
    else ResultFor(results[..|results| - 1], index)
  }

  /** Replies are handled until the entry's own result is there. */
  function Replicate(c: Core, index: nat, arrivals: seq<Arrival>): (Core, Option<KvStore.Outcome>)
    decreases |arrivals|
  {
    if arrivals == [] then (c, None)
    else if arrivals[0].reply.None? then Replicate(c, index, arrivals[1..])
    else
      var c' := HandleAppendResult(c, arrivals[0].peer, index, arrivals[0].reply.value);
      var found := if c'.commit > c.commit then ResultFor(ApplyResults(c.(commit := index)), index) else None;
      if found.Some? then (c', found) else Replicate(c', index, arrivals[1..])
  }

  /** The replies before the first that carries a term above the node's. */
  function InTerm(term: nat, arrivals: seq<Arrival>): seq<Arrival> {
    if arrivals == [] || (arrivals[0].reply.Some? && arrivals[0].reply.value.term > term) then []
    else [arrivals[0]] + InTerm(term, arrivals[1..])
  }

  predicate SomeArrived(arrivals: seq<Arrival>) { exists a <- arrivals :: a.reply.Some? }

  /** Peers whose replies arrived and were positive. */
  function Confirmers(arrivals: seq<Arrival>): set<nat> {
    set k | 0 <= k < |arrivals| && arrivals[k].reply.Some? && arrivals[k].reply.value.success :: arrivals[k].peer
  }

  method ReplicateToPeers(core: RaftCore, index: nat, arrivals: seq<Arrival>) returns (outcome: Option<KvStore.Outcome>)
    requires core.Valid()
    modifies core, core.storage, core.machine
    ensures core.Valid()
    ensures (core.State(), outcome) == Replicate(old(core.State()), index, arrivals)
  {
    outcome := None;
    for i := 0 to |arrivals|
      invariant core.Valid()
      invariant Replicate(core.State(), index, arrivals[i..]) == Replicate(old(core.State()), index, arrivals)
    {
      hide HandleAppendResult, ApplyResults, ResultFor;
      assert arrivals[i..][1..] == arrivals[i + 1..];
      if arrivals[i].reply.Some? {
        var _, results := core.HandleAppendEntriesResult(arrivals[i].peer, index, arrivals[i].reply.value);
        outcome := FindResult(results, index);
        if outcome.Some? {
          return;
        }
      }
    }
    outcome := None;
  }

  method FindResult(results: seq<(nat, KvStore.Outcome)>, index: nat) returns (found: Option<KvStore.Outcome>)
    ensures found == ResultFor(results, index)
  {
    found := None;
    for i := 0 to |results|
      invariant found == ResultFor(results[..i], index)
    {
      assert results[..i + 1][..i] == results[..i];
      if results[i].0 == index {
        found := Some(results[i].1);
      }
    }
    assert results[..|results|] == results;
  }

  method HandleSubmit(core: RaftCore, command: string, arrivals: seq<Arrival>) returns (result: SubmitResult)
    requires core.Valid()
    modifies core, core.storage, core.machine
    ensures core.Valid()
    ensures result == NotLeader <==> old(core.role) != Leader
    ensures result == InvalidCommand <==> old(core.role) == Leader && !KvStore.Validate(command)
    ensures result.NotLeader? || result.InvalidCommand? ==> core.State() == old(core.State())
    ensures result.Answered? <==>
            && old(core.role) == Leader && KvStore.Validate(command)
            && MajorityHolds(old(core.State()), old(core.snapIndex + |core.log|) + 1, arrivals)
    ensures result.Answered? || result.NotCommitted? ==>
              var c := AppendCommand(old(core.State()), command).value;
              && core.State() == Replicate(c, LastLogIndex(c), arrivals).0
              && Replicate(c, LastLogIndex(c), arrivals).1 == if result.Answered? then Some(result.outcome) else None
  {
    if core.role != Leader {
      return NotLeader;
    }
    if !KvStore.Validate(command) {
      return InvalidCommand;
    }
    hide KvStore.Validate, MajorityHolds;
    var outcome := SubmitValid(core, command, arrivals);
    result := if outcome.Some? then Answered(outcome.value) else NotCommitted;
  }

  method SubmitValid(core: RaftCore, command: string, arrivals: seq<Arrival>)
    returns (outcome: Option<KvStore.Outcome>)
    requires core.Valid() && core.role == Leader
    modifies core, core.storage, core.machine
    ensures core.Valid()
    ensures var c := AppendCommand(old(core.State()), command).value;
            (core.State(), outcome) == Replicate(c, LastLogIndex(c), arrivals)
    ensures outcome.Some? <==> MajorityHolds(old(core.State()), old(core.snapIndex + |core.log|) + 1, arrivals)
  {
    hide Replicate, MajorityHolds;
    LastIndexIs(core.State());
    AppendedIsDecided(core.State(), command, arrivals);
    hide MirroredBy, Contiguous;
    var entry := core.AppendLogEntry(command);
    outcome := ReplicateToPeers(core, entry.value.index, arrivals);
  }

  // ----- when a command is answered -----

  /** Some reply arrives before any of a higher term, and the peers that hold the entry, those that say so by
      then included, are with the leader more than half of the cluster. */
  predicate MajorityHolds(c: Core, index: nat, arrivals: seq<Arrival>) {
    var heard := InTerm(c.term, arrivals);
    SomeArrived(heard) && 2 * (1 + |Holding(c.acked, index) + Confirmers(heard)|) > 1 + |c.peers|
  }

  /** Peers that hold the entry, more to come included, are with the leader more than half of the cluster. */
  predicate EnoughHold(c: Core, index: nat, more: set<nat>) {
    2 * (1 + |Holding(c.acked, index) + more|) > 1 + |c.peers|
  }

  lemma {:induction false} OutcomesIndexed(snapIndex: nat, log: seq<Entry>, data: Data, from: nat, upTo: nat)
    requires snapIndex <= from <= upTo <= snapIndex + |log|
    ensures var r := Outcomes(snapIndex, log, data, from, upTo);
            |r| == upTo - from && forall k | 0 <= k < |r| :: r[k].0 == from + 1 + k
    decreases upTo - from
  {
    hide KvStore.ApplyCommand;
    if from < upTo {
      OutcomesIndexed(snapIndex, log, KvStore.ApplyCommand(data, log[from - snapIndex].command).0, from + 1, upTo);
    }
  }

  lemma CommitHasResult(c: Core, index: nat)
    requires Ordered(c) && c.commit < index <= c.snapIndex + |c.log|
    ensures ResultFor(ApplyResults(c.(commit := index)), index).Some?
  {
    OutcomesIndexed(c.snapIndex, c.log, c.data, c.applied, index);
    ResultForAt(ApplyResults(c.(commit := index)), c.applied + 1, index);
  }

  lemma HoldersAfter(acked: map<nat, nat>, peer: nat, index: nat, success: bool, more: set<nat>)
    requires index > 0
    ensures var acked' := if success && index > Lookup(acked, peer, 0) then acked[peer := index] else acked;
            Holding(acked', index) + more == Holding(acked, index) + (more + if success then {peer} else {})
  {
  }

  lemma ConfirmersSplit(first: Arrival, rest: seq<Arrival>)
    ensures Confirmers([first] + rest) ==
            Confirmers(rest) + if first.reply.Some? && first.reply.value.success then {first.peer} else {}
    ensures SomeArrived([first] + rest) <==> first.reply.Some? || SomeArrived(rest)
    ensures !SomeArrived(rest) ==> Confirmers(rest) == {}
  {
    var all := [first] + rest;
    forall v | v in Confirmers(rest) ensures v in Confirmers(all) {
      var k :| 0 <= k < |rest| && rest[k].reply.Some? && rest[k].reply.value.success && rest[k].peer == v;
      assert all[k + 1] == rest[k];
    }
    forall v | v in Confirmers(all)
      ensures v in Confirmers(rest) || (first.reply.Some? && first.reply.value.success && v == first.peer)
    {
      var k :| 0 <= k < |all| && all[k].reply.Some? && all[k].reply.value.success && all[k].peer == v;
      if k > 0 { assert rest[k - 1] == all[k]; }
    }
    assert all[0] == first;
    assert SomeArrived(rest) ==> SomeArrived(all) by {
      if a :| a in rest && a.reply.Some? { assert a in all; }
    }
  }

  /** One reply of the leader's term: it commits if enough hold the entry with it, else the count goes on. */
  lemma OneReply(c: Core, peer: nat, index: nat, reply: AppendResult, later: set<nat>)
    requires Ordered(c) && c.role == Leader && c.commit < index <= c.snapIndex + |c.log|
    requires c.log[index - c.snapIndex - 1].term == c.term && reply.term <= c.term
    ensures var c' := HandleAppendResult(c, peer, index, reply);
            var more := later + if reply.success then {peer} else {};
            && (c'.commit > c.commit ==> EnoughHold(c, index, more))
            && (c'.commit <= c.commit ==>
                  && c' == c.(acked := c'.acked, next := c'.next)
                  && (EnoughHold(c', index, later) <==> EnoughHold(c, index, more))
                  && (later == {} ==> !EnoughHold(c', index, later)))
  {
    ReplyDecided(c, peer, index, reply);
    HoldersAfter(c.acked, peer, index, reply.success, later);
    var acked := AckedAfter(c, peer, index, reply.success);
    SubsetSize(Holding(acked, index), Holding(acked, index) + later);
    assert later == {} ==> Holding(acked, index) + later == Holding(acked, index);
    hide HandleAppendResult, Holding, AckedAfter;
  }

  lemma HigherTermEnds(c: Core, peer: nat, index: nat, reply: AppendResult, rest: seq<Arrival>)
    requires reply.term > c.term
    ensures var c' := HandleAppendResult(c, peer, index, reply);
            c'.commit == c.commit && Replicate(c', index, rest).1 == None
  {
    ReplyDecided(c, peer, index, reply);
    hide HandleAppendResult;
    FollowerAnswersNothing(HandleAppendResult(c, peer, index, reply), index, rest);
  }

  lemma {:induction false} FollowerAnswersNothing(c: Core, index: nat, arrivals: seq<Arrival>)
    requires c.role != Leader
    ensures Replicate(c, index, arrivals).1 == None
    decreases |arrivals|
  {
    if arrivals != [] {
      if arrivals[0].reply.Some? {
        ReplyDecided(c, arrivals[0].peer, index, arrivals[0].reply.value);
        hide HandleAppendResult;
        FollowerAnswersNothing(HandleAppendResult(c, arrivals[0].peer, index, arrivals[0].reply.value), index,
                               arrivals[1..]);
      } else {
        FollowerAnswersNothing(c, index, arrivals[1..]);
      }
    }
  }

  predicate AnsweredIff(c: Core, index: nat, arrivals: seq<Arrival>) {
    Replicate(c, index, arrivals).1.Some? <==> MajorityHolds(c, index, arrivals)
  }

  /** The entry of a command that was just appended. */
  lemma AppendedIsDecided(c: Core, command: string, arrivals: seq<Arrival>)
    requires Ordered(c) && c.role == Leader
    ensures var c1, index := AppendCommand(c, command).value, c.snapIndex + |c.log| + 1;
            Replicate(c1, index, arrivals).1.Some? <==> MajorityHolds(c, index, arrivals)
  {
    LastIndexIs(c);
    ReplicateDecided(AppendCommand(c, command).value, c.snapIndex + |c.log| + 1, arrivals);
    hide Replicate, InTerm, SomeArrived, Confirmers;
  }

  lemma ReplyAnsweredIff(c: Core, first: Arrival, index: nat, rest: seq<Arrival>)
    requires Ordered(c) && c.role == Leader && c.commit < index <= c.snapIndex + |c.log|
    requires c.log[index - c.snapIndex - 1].term == c.term && first.reply.Some? && first.reply.value.term <= c.term
    requires var c' := HandleAppendResult(c, first.peer, index, first.reply.value);
             c'.commit <= c.commit ==> AnsweredIff(c', index, rest)
    ensures AnsweredIff(c, index, [first] + rest)
  {
    var heard := InTerm(c.term, rest);
    assert ([first] + rest)[1..] == rest && InTerm(c.term, [first] + rest) == [first] + heard;
    ConfirmersSplit(first, heard);
    OneReply(c, first.peer, index, first.reply.value, Confirmers(heard));
    ReplicateGoesOn(c, first.peer, index, first.reply.value, rest);
    assert Arrival(first.peer, Some(first.reply.value)) == first;
    hide HandleAppendResult, Confirmers, SomeArrived, EnoughHold, Replicate, Ordered, InTerm;
  }

  /** A command is answered exactly if a majority says in time that it holds its entry. */
  lemma {:induction false} ReplicateDecided(c: Core, index: nat, arrivals: seq<Arrival>)
    requires Ordered(c) && c.role == Leader && c.commit < index <= c.snapIndex + |c.log|
    requires c.log[index - c.snapIndex - 1].term == c.term
    ensures AnsweredIff(c, index, arrivals)
    decreases |arrivals|
  {
    if arrivals == [] {
      assert !SomeArrived([]);
    } else {
      var first, rest := arrivals[0], arrivals[1..];
      assert arrivals == [first] + rest;
      hide AnsweredIff, HandleAppendResult, EnoughHold, Ordered;
      if first.reply.None? {
        ReplicateDecided(c, index, rest);
        FailedAnsweredIff(c, first, index, rest);
      } else if first.reply.value.term > c.term {
        HigherAnsweredIff(c, first, index, rest);
      } else {
        var c' := HandleAppendResult(c, first.peer, index, first.reply.value);
        OneReply(c, first.peer, index, first.reply.value, {});
        if c'.commit <= c.commit {
          OrderedStays(c, c');
          ReplicateDecided(c', index, rest);
        }
        ReplyAnsweredIff(c, first, index, rest);
      }
    }
  }

  lemma FailedAnsweredIff(c: Core, first: Arrival, index: nat, rest: seq<Arrival>)
    requires first.reply.None? && AnsweredIff(c, index, rest)
    ensures AnsweredIff(c, index, [first] + rest)
  {
    ConfirmersSplit(first, InTerm(c.term, rest));
    assert ([first] + rest)[1..] == rest;
    hide SomeArrived, Confirmers, Holding;
  }

  lemma HigherAnsweredIff(c: Core, first: Arrival, index: nat, rest: seq<Arrival>)
    requires first.reply.Some? && first.reply.value.term > c.term
    ensures AnsweredIff(c, index, [first] + rest)
  {
    HigherTermEnds(c, first.peer, index, first.reply.value, rest);
    assert ([first] + rest)[1..] == rest && !SomeArrived([]);
    hide HandleAppendResult, Confirmers, Holding;
  }

  lemma ReplicateGoesOn(c: Core, peer: nat, index: nat, reply: AppendResult, rest: seq<Arrival>)
    requires Ordered(c) && c.commit < index <= c.snapIndex + |c.log|
    ensures var c' := HandleAppendResult(c, peer, index, reply);
            var outcome := Replicate(c, index, [Arrival(peer, Some(reply))] + rest).1;
            if c'.commit > c.commit then outcome.Some? else outcome == Replicate(c', index, rest).1
  {
    CommitHasResult(c, index);
    var arrivals := [Arrival(peer, Some(reply))] + rest;
    assert arrivals[1..] == rest;
    hide HandleAppendResult, ApplyResults, ResultFor, Ordered;
  }

  lemma OrderedStays(c: Core, c': Core)
    requires Ordered(c) && c' == c.(acked := c'.acked, next := c'.next)
    ensures Ordered(c')
  {
  }

  // ----- what an answer means -----

  /** The node holds the whole log, part of it as a snapshot, and its state machine has applied all
      that is committed. */
  ghost predicate Tracks(whole: seq<Entry>, c: Core) {
    && Represents(whole, c)
    && c.snapIndex <= c.applied == c.commit <= |whole|
    && c.data == KvStore.Replay(whole[..c.applied])
  }

  lemma {:induction false} OutcomesReplay(whole: seq<Entry>, snap: nat, data: Data, from: nat, upTo: nat)
    requires snap <= from <= upTo <= |whole| && data == KvStore.Replay(whole[..from])
    ensures var r := Outcomes(snap, whole[snap..], data, from, upTo);
            && |r| == upTo - from
            && forall k | 0 <= k < |r| ::
                 r[k] == (from + 1 + k, KvStore.ApplyCommand(KvStore.Replay(whole[..from + k]),
                          whole[from + k].command).1)
    decreases upTo - from
  {
    hide KvStore.ApplyCommand;
    if from < upTo {
      assert whole[..from + 1][..from] == whole[..from];
      OutcomesReplay(whole, snap, KvStore.Replay(whole[..from + 1]), from + 1, upTo);
    }
  }

  lemma {:induction false} ResultForAt(results: seq<(nat, KvStore.Outcome)>, first: nat, index: nat)
    requires forall k | 0 <= k < |results| :: results[k].0 == first + k
    ensures first <= index < first + |results| ==> ResultFor(results, index) == Some(results[index - first].1)
    ensures !(first <= index < first + |results|) ==> ResultFor(results, index) == None
    decreases |results|
  {
    if results != [] { ResultForAt(results[..|results| - 1], first, index); }
  }

  lemma {:induction false} CommitTracks(whole: seq<Entry>, c: Core, k: nat)
    requires Tracks(whole, c) && c.commit <= k <= |whole|
    ensures Tracks(whole, ApplyCommitted(c.(commit := k))) && ApplyCommitted(c.(commit := k)).commit == k
  {
    var saved := if c.snapIndex == 0 then None
    else Some(Snapshot(c.snapIndex, c.snapTerm, KvStore.Replay(whole[..c.snapIndex])));
    CommitMirrors(Node(c, saved), Whole(whole, c), k);
    ApplyUpToKeepsRest(c.(commit := k));
    var w := Whole(whole, c).(commit := k);
    ApplyUpToReplays(w);
    assert ApplyCommitted(w) == w.(applied := k, data := KvStore.Replay(whole[..k]));
  }

  /** A reply keeps the node in step with the whole log and commits the entry asked about, or nothing. */
  lemma {:induction false} ReplyTracks(whole: seq<Entry>, c: Core, peer: nat, index: nat, result: AppendResult)
    requires Tracks(whole, c)
    ensures var c' := HandleAppendResult(c, peer, index, result);
            Tracks(whole, c') && (c'.commit == c.commit || c'.commit == index > c.commit)
  {
    RecordTracks(whole, c, peer, index, result);
    var c1 := RecordReply(StepDown(c, result.term), peer, index, result);
    hide RecordReply, Tracks, CommitCounted;
    CountTracks(whole, c1, index);
  }

  lemma RecordTracks(whole: seq<Entry>, c: Core, peer: nat, index: nat, result: AppendResult)
    requires Tracks(whole, c)
    ensures Tracks(whole, StepDown(c, result.term))
    ensures var c1 := RecordReply(StepDown(c, result.term), peer, index, result);
            Tracks(whole, c1) && c1.commit == c.commit
  {
    hide KvStore.Replay, NextAfterRejection;
  }

  lemma CountTracks(whole: seq<Entry>, c: Core, index: nat)
    requires Tracks(whole, c)
    ensures var c' := CommitCounted(c, index);
            Tracks(whole, c') && (c'.commit == c.commit || c'.commit == index > c.commit)
  {
    SameLookups(whole, c, index);
    if index > c.commit && index <= |whole| { CommitTracks(whole, c, index); }
  }

  /** A write is answered exactly when its entry was committed, and the answer is what the state machine
      says to the command after everything before it in the log. */
  lemma {:induction false} ReplicateAnswers(whole: seq<Entry>, c: Core, index: nat, arrivals: seq<Arrival>)
    requires Tracks(whole, c) && c.commit < index <= |whole|
    ensures var (c', outcome) := Replicate(c, index, arrivals);
            && Tracks(whole, c')
            && (outcome.Some? <==> c'.commit >= index)
            && (outcome.Some? ==>
                  outcome.value
                  == KvStore.ApplyCommand(KvStore.Replay(whole[..index - 1]), whole[index - 1].command).1)
    decreases |arrivals|
  {
    if arrivals != [] {
      if arrivals[0].reply.None? {
        ReplicateAnswers(whole, c, index, arrivals[1..]);
      } else {
        var c' := HandleAppendResult(c, arrivals[0].peer, index, arrivals[0].reply.value);
        ReplyTracks(whole, c, arrivals[0].peer, index, arrivals[0].reply.value);
        hide HandleAppendResult, Tracks, KvStore.ApplyCommand;
        if c'.commit > c.commit {
          ResultIsThere(whole, c, index);
        } else {
          ReplicateAnswers(whole, c', index, arrivals[1..]);
        }
      }
    }
  }

  lemma ResultIsThere(whole: seq<Entry>, c: Core, index: nat)
    requires Tracks(whole, c) && c.commit < index <= |whole|
    ensures ResultFor(ApplyResults(c.(commit := index)), index)
         == Some(KvStore.ApplyCommand(KvStore.Replay(whole[..index - 1]), whole[index - 1].command).1)
  {
    hide KvStore.ApplyCommand;
    OutcomesReplay(whole, c.snapIndex, c.data, c.applied, index);
    ResultForAt(ApplyResults(c.(commit := index)), c.applied + 1, index);
  }

  lemma AppendTracks(whole: seq<Entry>, c: Core, command: string)
    requires Tracks(whole, c) && c.role == Leader
    ensures var c1 := AppendCommand(c, command).value;
            Tracks(whole + [Entry(c.term, |whole| + 1, command)], c1) && LastLogIndex(c1) == |whole| + 1
  {
    var longer := whole + [Entry(c.term, |whole| + 1, command)];
    SameLookups(whole, c, 0);
    hide KvStore.Replay;
    assert AppendCommand(c, command).value.log == longer[c.snapIndex..];
    assert longer[..c.applied] == whole[..c.applied];
  }

  lemma TrackedIsDecided(whole: seq<Entry>, c: Core, command: string, arrivals: seq<Arrival>)
    requires Tracks(whole, c) && c.role == Leader
    ensures Replicate(AppendCommand(c, command).value, |whole| + 1, arrivals).1.Some?
       <==> MajorityHolds(c, |whole| + 1, arrivals)
  {
    SuffixContiguous(0, whole, c.snapIndex);
    AppendedIsDecided(c, command, arrivals);
    hide MajorityHolds, Replicate, KvStore.Replay;
  }

  /** The same from the client's side: on a leader that holds `whole`. */
  lemma {:induction false} SubmitAnswers(whole: seq<Entry>, c: Core, command: string, arrivals: seq<Arrival>)
    requires Tracks(whole, c) && c.role == Leader
    ensures var c1 := AppendCommand(c, command).value;
            var index := LastLogIndex(c1);
            var (c', outcome) := Replicate(c1, index, arrivals);
            && index == |whole| + 1
            && (outcome.Some? <==> c'.applied >= index)
            && (outcome.Some? <==> MajorityHolds(c, index, arrivals))
            && (outcome.Some? ==> outcome.value == KvStore.ApplyCommand(KvStore.Replay(whole), command).1)
  {
    var longer := whole + [Entry(c.term, |whole| + 1, command)];
    var c1 := AppendCommand(c, command).value;
    AppendTracks(whole, c, command);
    ReplicateAnswers(longer, c1, |whole| + 1, arrivals);
    TrackedIsDecided(whole, c, command, arrivals);
    hide MajorityHolds, Contiguous, Tracks, AppendCommand, LastLogIndex, Replicate, Represents, KvStore.ApplyCommand,
      KvStore.Replay;
    assert longer[..|whole|] == whole;
  }

  // ----- reading -----

  datatype ReadResult = Index(applied: nat) | ReadNotLeader | ReadTimeout

  predicate Confirming(arrivals: seq<Arrival>, term: nat, peer: nat) {
    exists k :: 0 <= k < |arrivals| && arrivals[k].peer == peer && arrivals[k].reply.Some?
                && arrivals[k].reply.value.success && arrivals[k].reply.value.term <= term
  }

  /** Counts positive replies until they make a majority with the node itself. A higher term in a reply
      is taken over in memory only, as in the source. */
  method ConfirmLeadership(core: RaftCore, arrivals: seq<Arrival>)
    returns (stillLeader: bool, count: nat, ghost confirmed: set<nat>)
    requires OneEach(core.peers, arrivals)
    modifies core`term, core`role, core`votedFor
    ensures stillLeader <==> core.role == Leader
    ensures stillLeader ==> core.State() == old(core.State())
    ensures old(core.role) == Leader ==>
              var heard := InTerm(old(core.term), arrivals);
              var majority := 2 * (1 + |Confirmers(heard)|) > 1 + |core.peers|;
              && (stillLeader <==> majority || heard == arrivals)
              && (stillLeader ==> (2 * (1 + count) > 1 + |core.peers| <==> majority))
              && (!stillLeader ==> |heard| < |arrivals| && arrivals[|heard|].reply.Some?
                                   && arrivals[|heard|].reply.value.term == core.term > old(core.term))
    ensures |confirmed| == count && confirmed <= SetOf(core.peers)
    ensures forall p <- confirmed :: Confirming(arrivals, old(core.term), p)
    ensures stillLeader && 2 * (count + 1) <= 1 + |core.peers| ==>
              forall p <- core.peers | Confirming(arrivals, core.term, p) :: p in confirmed
    ensures core.State() == old(core.State()) || core.State() == StepDown(old(core.State()), core.term)
    ensures old(core.Valid()) ==> (core.Valid() <==> core.term == old(core.term))
  {
    NoConfirmers(arrivals);
    hide Confirmers, Confirming, OneEach, SetOf, InTerm;
    confirmed := {};
    count := 0;
    if core.role != Leader {
      return false, 0, {};
    }
    var needed := (|core.peers| + 1) / 2;
    for i := 0 to |arrivals|
      invariant core.State() == old(core.State()) && core.role == Leader
      invariant |confirmed| == count && confirmed <= SetOf(core.peers)
      invariant i > 0 ==> count < needed
      invariant confirmed == Confirmers(arrivals[..i])
      invariant forall k | 0 <= k < i && arrivals[k].reply.Some? :: arrivals[k].reply.value.term <= core.term
    {
      ConfirmersStep(core.peers, arrivals, i);
      HeardSoFar(core.term, arrivals, i);
      var result := arrivals[i].reply;
      if result.Some? {
        if result.value.term > core.term {
          core.term := result.value.term;
          core.role := Follower;
          core.votedFor := None;
          ConfirmersConfirm(arrivals, i, old(core.term));
          return false, count, confirmed;
        }
        if result.value.success {
          count := count + 1;
          confirmed := confirmed + {arrivals[i].peer};
        }
      }
      if count >= needed {
        ConfirmersConfirm(arrivals, i + 1, core.term);
        HeardSoFar(core.term, arrivals, i + 1);
        return core.role == Leader, count, confirmed;
      }
    }
    ConfirmersConfirm(arrivals, |arrivals|, core.term);
    HeardSoFar(core.term, arrivals, |arrivals|);
    AllConfirmers(arrivals, core.term);
    stillLeader := core.role == Leader;
  }

  /** While no reply carries a higher term, all of them are heard; the first that does ends it. */
  lemma HeardSoFar(term: nat, arrivals: seq<Arrival>, i: nat)
    requires i <= |arrivals|
    requires forall k | 0 <= k < i && arrivals[k].reply.Some? :: arrivals[k].reply.value.term <= term
    ensures var heard := InTerm(term, arrivals);
            && i <= |heard| <= |arrivals| && heard[..i] == arrivals[..i]
            && |Confirmers(arrivals[..i])| <= |Confirmers(heard)|
            && (i == |arrivals| ==> heard == arrivals && Confirmers(arrivals[..i]) == Confirmers(heard))
            && (i < |arrivals| && arrivals[i].reply.Some? && arrivals[i].reply.value.term > term ==>
                  heard == arrivals[..i])
  {
    InTermStarts(term, arrivals, i);
    var heard := InTerm(term, arrivals);
    forall p | p in Confirmers(arrivals[..i]) ensures p in Confirmers(heard) {
      var k :| 0 <= k < i && arrivals[..i][k].reply.Some? && arrivals[..i][k].reply.value.success
               && arrivals[..i][k].peer == p;
      assert heard[k] == heard[..i][k] == arrivals[..i][k];
    }
    SubsetSize(Confirmers(arrivals[..i]), Confirmers(heard));
    assert heard[..|heard|] == heard && arrivals[..|arrivals|] == arrivals;
  }

  lemma {:induction false} InTermStarts(term: nat, arrivals: seq<Arrival>, i: nat)
    requires i <= |arrivals|
    requires forall k | 0 <= k < i && arrivals[k].reply.Some? :: arrivals[k].reply.value.term <= term
    ensures var heard := InTerm(term, arrivals);
            && i <= |heard| <= |arrivals| && heard[..i] == arrivals[..i]
            && (i < |arrivals| && arrivals[i].reply.Some? && arrivals[i].reply.value.term > term ==> |heard| == i)
    decreases |arrivals|
  {
    if arrivals != [] {
      var rest := arrivals[1..];
      if i > 0 {
        InTermStarts(term, rest, i - 1);
        assert arrivals[..i] == [arrivals[0]] + rest[..i - 1];
        assert ([arrivals[0]] + InTerm(term, rest))[..i] == [arrivals[0]] + InTerm(term, rest)[..i - 1];
      } else if |InTerm(term, arrivals)| > 0 {
        InTermStarts(term, rest, 0);
      }
    }
  }

  lemma NoConfirmers(arrivals: seq<Arrival>)
    ensures Confirmers(arrivals[..0]) == {}
  {
  }

  lemma AllConfirmers(arrivals: seq<Arrival>, term: nat)
    ensures forall p | Confirming(arrivals, term, p) :: p in Confirmers(arrivals[..|arrivals|])
  {
    assert arrivals[..|arrivals|] == arrivals;
  }

  lemma ConfirmersStep(peers: seq<nat>, arrivals: seq<Arrival>, i: nat)
    requires OneEach(peers, arrivals) && i < |arrivals|
    ensures arrivals[i].peer !in Confirmers(arrivals[..i]) && arrivals[i].peer in SetOf(peers) && |peers| > 0
    ensures Confirmers(arrivals[..i + 1]) ==
            if arrivals[i].reply.Some? && arrivals[i].reply.value.success
            then Confirmers(arrivals[..i]) + {arrivals[i].peer} else Confirmers(arrivals[..i])
  {
    assert arrivals[i] in arrivals;
    assert arrivals[..i + 1] == arrivals[..i] + [arrivals[i]];
  }

  lemma ConfirmersConfirm(arrivals: seq<Arrival>, i: nat, term: nat)
    requires i <= |arrivals|
    requires forall k | 0 <= k < i && arrivals[k].reply.Some? :: arrivals[k].reply.value.term <= term
    ensures forall p <- Confirmers(arrivals[..i]) :: Confirming(arrivals, term, p)
  {
    forall p | p in Confirmers(arrivals[..i]) ensures Confirming(arrivals, term, p) {
      var k :| 0 <= k < |arrivals[..i]| && arrivals[..i][k].reply.Some? && arrivals[..i][k].reply.value.success
               && arrivals[..i][k].peer == p;
      assert arrivals[k] == arrivals[..i][k];
    }
  }

  /** Answers with what the state machine has applied, at least the read index, once a majority of the
      cluster, the node included, has confirmed that it leads. Applying is synchronous, so the wait
      for a lagging state machine is one look. */
  method HandleReadIndex(core: RaftCore, arrivals: seq<Arrival>) returns (result: ReadResult, ghost confirmed: set<nat>)
    requires OneEach(core.peers, arrivals) && core.id !in core.peers
    modifies core`term, core`role, core`votedFor
    ensures old(core.role) != Leader ==> result == ReadNotLeader && core.State() == old(core.State())
    ensures old(core.role) == Leader ==>
              var heard := InTerm(old(core.term), arrivals);
              var majority := 2 * (1 + |Confirmers(heard)|) > 1 + |core.peers|;
              && (result.Index? <==> majority && core.applied >= core.commit)
              && (result.ReadNotLeader? <==> !majority && heard != arrivals)
              && (result.ReadNotLeader? ==> |heard| < |arrivals| && arrivals[|heard|].reply.Some?
                                            && arrivals[|heard|].reply.value.term == core.term > old(core.term))
    ensures result.Index? ==>
              && core.State() == old(core.State()) && core.role == Leader
              && result.applied == core.applied >= core.commit
              && core.id in confirmed && confirmed <= {core.id} + SetOf(core.peers)
              && 2 * |confirmed| > 1 + |core.peers|
              && forall p <- confirmed | p != core.id :: Confirming(arrivals, core.term, p)
    ensures result == ReadTimeout ==>
              core.commit > core.applied
              || forall votes: set<nat> |
                votes <= SetOf(core.peers) && (forall p <- votes :: Confirming(arrivals, core.term, p)) ::
                2 * (|votes| + 1) <= 1 + |core.peers|
  {
    confirmed := {};
    if core.role != Leader {
      return ReadNotLeader, {};
    }
    var readIndex := core.commit;
    var stillLeader, count, peers := ConfirmLeadership(core, arrivals);
    if !stillLeader {
      return ReadNotLeader, {};
    }
    var majority := (|core.peers| + 1) / 2 + 1;
    if count + 1 < majority {
      FewerConfirm(core.peers, arrivals, core.term, peers);
      return ReadTimeout, {};
    }
    confirmed := peers + {core.id};
    result := if core.applied >= readIndex then Index(core.applied) else ReadTimeout;
  }

  lemma FewerConfirm(peers: seq<nat>, arrivals: seq<Arrival>, term: nat, confirmed: set<nat>)
    requires forall p <- peers | Confirming(arrivals, term, p) :: p in confirmed
    ensures forall votes: set<nat> | votes <= SetOf(peers) && (forall p <- votes :: Confirming(arrivals, term, p))
              :: |votes| <= |confirmed|
  {
    forall votes: set<nat> | votes <= SetOf(peers) && (forall p <- votes :: Confirming(arrivals, term, p))
      ensures |votes| <= |confirmed|
    {
      assert votes <= confirmed;
      SubsetSize(votes, confirmed);
    }
  }

  // ----- a term that is not saved -----

  /** Memory and disk agree on all but the term and the vote. */
  predicate SameButTerm(c: Core, disk: Stored) {
    MirroredBy(c.(term := disk.term, votedFor := disk.votedFor), disk)
  }

  /** A node whose disk may lag grants a vote and restarts, and another candidate of the same term asks.
      The second vote is granted exactly when the first one did not raise the node's term and the term on
      disk was below the one in memory. */
  lemma SecondVoteIff(c: Core, disk: Stored, x: VoteArgs, y: VoteArgs)
    requires SameButTerm(c, disk) && HandleRequestVote(c, x).1.granted
    requires y.term == x.term && y.candidateId != x.candidateId
    requires UpToDate(y.lastLogTerm, y.lastLogIndex, LastLogTerm(c), LastLogIndex(c))
    ensures var restarted := Boot(c.id, c.peers, DiskAfterVote(disk, c, x), c.threshold);
            && HandleRequestVote(c, x).1.term == x.term
            && (HandleRequestVote(restarted, y).1.granted <==> x.term == c.term && disk.term < c.term)
  {
    var restarted := Boot(c.id, c.peers, DiskAfterVote(disk, c, x), c.threshold);
    assert restarted.log == c.log && LastLogIndex(restarted) == LastLogIndex(c);
  }
}
