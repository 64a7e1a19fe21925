/** No reachable state is stuck: from every state of every run a cluster of at least two nodes can go on to
    elect a leader, store a command everywhere and commit it. A cluster of one node never has a leader, since
    votes are only counted when a reply comes (src/core/raft_node.rs:64-74). */
module Progress {
  import opened Types
  import opened Collections
  import opened CoreSteps
  import opened History
  import opened Cluster
  import opened Invariant
  import opened VoteSteps
  import opened Applying
  import opened Safety
  import opened Decisions
  import KvStore

  function Last(run: seq<State>): State
    requires run != []
  {
    run[|run| - 1]
  }

  lemma Do(run: seq<State>, step: Step) returns (longer: seq<State>)
    requires Run(LastNewEntry, run) && Enabled(Last(run), step)
    ensures Run(LastNewEntry, longer) && run <= longer && Last(longer) == Perform(LastNewEntry, Last(run), step)
  {
    longer := run + [Perform(LastNewEntry, Last(run), step)];
    RunSnoc(LastNewEntry, run, Perform(LastNewEntry, Last(run), step));
  }

  /** What every node of a reachable state is like. */
  predicate Regular(s: State, i: nat) {
    && i in s.nodes
    && var c := s.nodes[i];
    && Configured(s.nodes.Keys, i, c) && Plain(c) && Contiguous(0, c.log)
    && LastLogIndex(c) == |c.log| && LastLogTerm(c) == LastTermOf(c.log)
    && 1 <= c.commit + 1 && c.commit == c.applied <= |c.log|
    && (forall p <- c.peers :: 1 <= NextFor(c, p))
  }

  lemma AllRegular(run: seq<State>)
    requires Run(LastNewEntry, run)
    ensures forall i <- Last(run).nodes :: Regular(Last(run), i)
  {
    var h := RunHistory(run);
    forall i | i in Last(run).nodes ensures Regular(Last(run), i) {
      assert NodeOk(h, i, Last(run).nodes[i]);
      PlainLog(h, Last(run).nodes[i]);
    }
  }

  // ----- a candidate in a term above all others -----

  /** The node whose log ends latest. */
  predicate Latest(s: State, i: nat) {
    i in s.nodes && forall p <- s.nodes ::
      UpToDate(LastTermOf(s.nodes[i].log), |s.nodes[i].log|, LastTermOf(s.nodes[p].log), |s.nodes[p].log|)
  }

  lemma {:induction false} LatestOf(nodes: map<nat, Core>, s: set<nat>) returns (i: nat)
    requires s != {} && s <= nodes.Keys
    ensures i in s && forall p <- s ::
              UpToDate(LastTermOf(nodes[i].log), |nodes[i].log|, LastTermOf(nodes[p].log), |nodes[p].log|)
    decreases |s|
  {
    i :| i in s;
    if s != {i} {
      var j := LatestOf(nodes, s - {i});
      var k := i;
      if !UpToDate(LastTermOf(nodes[i].log), |nodes[i].log|, LastTermOf(nodes[j].log), |nodes[j].log|) { i := j; }
      forall p <- s ensures
          UpToDate(LastTermOf(nodes[i].log), |nodes[i].log|, LastTermOf(nodes[p].log), |nodes[p].log|)
      {
        assert p == k || p in s - {k};
      }
    }
  }

  lemma {:induction false} HighestTerm(nodes: map<nat, Core>, s: set<nat>) returns (t: nat)
    requires s <= nodes.Keys
    ensures forall p <- s :: nodes[p].term <= t
    decreases |s|
  {
    t := 0;
    if s != {} {
      var i :| i in s;
      t := HighestTerm(nodes, s - {i});
      t := Max(t, nodes[i].term);
    }
  }

  /** Node i stands for election in term t, which no other node has reached. */
  predicate Stands(s: State, i: nat, t: nat) {
    && i in s.nodes && s.nodes[i].role == Candidate && s.nodes[i].term == t && s.nodes[i].votes == [i]
    && forall p <- s.nodes | p != i :: s.nodes[p].term < t
  }

  lemma {:induction false} RaiseTerm(run: seq<State>, i: nat, t: nat) returns (longer: seq<State>)
    requires Run(LastNewEntry, run) && i in Last(run).nodes
    requires forall p <- Last(run).nodes :: Last(run).nodes[p].term <= t
    ensures Run(LastNewEntry, longer) && run <= longer && Last(longer).nodes.Keys == Last(run).nodes.Keys
    ensures Stands(Last(longer), i, Last(longer).nodes[i].term) && Last(longer).nodes[i].log == Last(run).nodes[i].log
    ensures forall p <- Last(run).nodes | p != i :: Last(longer).nodes[p] == Last(run).nodes[p]
    ensures Last(longer).nodes[i].term > t
    decreases t - Last(run).nodes[i].term
  {
    AllRegular(run);
    longer := Do(run, Timeout(i));
    if Last(longer).nodes[i].term <= t { longer := RaiseTerm(longer, i, t); }
  }

  // ----- the votes -----

  predicate MayVote(s: State, i: nat, t: nat, p: nat)
    requires p in s.nodes
  {
    s.nodes[p].term < t || (s.nodes[p].term == t && s.nodes[p].votedFor == Some(i))
  }

  /** The vote of p for node i in term t is on its way. */
  predicate Granted(s: State, i: nat, t: nat, p: nat) { VoteRep(p, i, t, VoteResult(t, true)) in s.net }

  /** Candidate c has asked everyone for a vote in its term, and the first k of its peers have granted it. */
  predicate Asking(s: State, c: Core, k: nat) {
    && Latest(s, c.id) && Regular(s, c.id) && s.nodes[c.id] == c && c.role == Candidate && c.votes == [c.id]
    && (forall p <- s.nodes | p != c.id :: MayVote(s, c.id, c.term, p))
    && (forall p <- c.peers :: VoteReq(c.id, p, VoteRequest(c)) in s.net)
    && k <= |c.peers|
    && forall j | 0 <= j < k :: Granted(s, c.id, c.term, c.peers[j])
  }

  lemma Ask(run: seq<State>, i: nat, t: nat) returns (longer: seq<State>)
    requires Run(LastNewEntry, run) && Stands(Last(run), i, t) && Latest(Last(run), i)
    ensures Run(LastNewEntry, longer) && run <= longer && Asking(Last(longer), Last(run).nodes[i], 0)
    ensures Last(longer).nodes == Last(run).nodes
  {
    AllRegular(run);
    hide Run, UpToDate;
    longer := Do(run, RequestVotes(i));
    assert Last(longer).nodes == Last(run).nodes;
  }

  /** The node p after its vote for c. */
  function AfterVote(s: State, c: Core, p: nat): Core
    requires p in s.nodes
  {
    s.nodes[p].(term := c.term, votedFor := Some(c.id),
    role := if s.nodes[p].term < c.term then Follower else s.nodes[p].role)
  }

  lemma VoteGiven(s: State, c: Core, k: nat, p: nat)
    requires Asking(s, c, k) && p in s.nodes && Regular(s, p) && p != c.id
    ensures HandleRequestVote(s.nodes[p], VoteRequest(c)) == (AfterVote(s, c, p), VoteResult(c.term, true))
  {
    VoteDecided(s.nodes[p], VoteRequest(c));
    hide HandleRequestVote;
  }

  lemma VoteStep(s: State, c: Core, k: nat)
    requires Asking(s, c, k) && k < |c.peers| && c.peers[k] in s.nodes && c.peers[k] != c.id
    ensures var p := c.peers[k];
            Asking(Update(s, p, AfterVote(s, c, p), {VoteRep(p, c.id, c.term, VoteResult(c.term, true))}), c, k + 1)
  {
    var p := c.peers[k];
    var s' := Update(s, p, AfterVote(s, c, p), {VoteRep(p, c.id, c.term, VoteResult(c.term, true))});
    assert s'.nodes.Keys == s.nodes.Keys;
    SameLatest(s, s', c.id);
    hide UpToDate, VoteRequest, Latest, Contiguous, Configured;
  }

  lemma SameLatest(s: State, s': State, i: nat)
    requires Latest(s, i) && s'.nodes.Keys == s.nodes.Keys && forall p <- s.nodes :: s'.nodes[p].log == s.nodes[p].log
    ensures Latest(s', i)
  {
    hide UpToDate;
  }

  lemma OneVotes(run: seq<State>, c: Core, k: nat) returns (longer: seq<State>)
    requires Run(LastNewEntry, run) && Asking(Last(run), c, k) && k < |c.peers|
    ensures Run(LastNewEntry, longer) && run <= longer && Asking(Last(longer), c, k + 1)
    ensures Last(longer).nodes.Keys == Last(run).nodes.Keys
  {
    AllRegular(run);
    var s, p := Last(run), c.peers[k];
    assert p in c.peers && p in s.nodes && p != c.id;
    VoteGiven(s, c, k, p);
    VoteStep(s, c, k);
    assert VoteReq(c.id, p, VoteRequest(c)) in s.net && VoteRequest(c).term == c.term;
    hide HandleRequestVote, Run, VoteRequest, Asking, Regular;
    longer := Do(run, ReceiveVoteReq(p, VoteReq(c.id, p, VoteRequest(c))));
  }

  lemma {:induction false} AllVote(run: seq<State>, c: Core, k: nat) returns (longer: seq<State>)
    requires Run(LastNewEntry, run) && Asking(Last(run), c, k)
    ensures Run(LastNewEntry, longer) && run <= longer && Asking(Last(longer), c, |c.peers|)
    ensures Last(longer).nodes.Keys == Last(run).nodes.Keys
    decreases |c.peers| - k
  {
    longer := run;
    if k < |c.peers| {
      var asked := OneVotes(run, c, k);
      hide Run, Asking;
      longer := AllVote(asked, c, k + 1);
    }
  }

  // ----- the count -----

  /** Node i has counted the votes of the first k of its peers in term t, and leads if they were enough. */
  predicate Counting(s: State, i: nat, t: nat, k: nat) {
    && i in s.nodes && s.nodes[i].term == t && Configured(s.nodes.Keys, i, s.nodes[i]) && k <= |s.nodes[i].peers|
    && (forall p <- s.nodes :: s.nodes[p].term <= t)
    && (forall p <- s.nodes[i].peers :: Granted(s, i, t, p))
    && (s.nodes[i].role == Leader
        || (s.nodes[i].role == Candidate && i in s.nodes[i].votes
            && (forall j | 0 <= j < k :: s.nodes[i].peers[j] in s.nodes[i].votes)))
  }

  lemma CountStarts(s: State, c: Core)
    requires Asking(s, c, |c.peers|)
    ensures Counting(s, c.id, c.term, 0)
  {
    hide UpToDate, VoteRequest;
    assert forall p <- c.peers :: exists j :: 0 <= j < |c.peers| && c.peers[j] == p;
  }

  /** Still a candidate, with the vote of p and not enough. */
  predicate HasCounted(c: Core, c': Core, p: nat) {
    && c'.role == Candidate && p in c'.votes && 2 * |c'.votes| <= 1 + |c.peers|
    && forall v <- c.votes :: v in c'.votes
  }

  /** One vote counted; a node that leads already ignores it. */
  lemma CountStep(c: Core, p: nat)
    requires c.role == Leader || c.role == Candidate
    ensures var c' := HandleVoteResult(c, p, VoteResult(c.term, true)).0;
            && c'.term == c.term && c'.id == c.id && c'.peers == c.peers
            && (c.role == Leader ==> c' == c)
            && (c.role == Candidate ==> c'.role == Leader || HasCounted(c, c', p))
  {
    VoteCounted(c, p, VoteResult(c.term, true));
  }

  lemma OneCounts(run: seq<State>, i: nat, t: nat, k: nat) returns (longer: seq<State>)
    requires Run(LastNewEntry, run) && Counting(Last(run), i, t, k) && k < |Last(run).nodes[i].peers|
    ensures Run(LastNewEntry, longer) && run <= longer && Last(longer).nodes.Keys == Last(run).nodes.Keys
    ensures Counting(Last(longer), i, t, k + 1) && Last(longer).nodes[i].peers == Last(run).nodes[i].peers
    ensures Last(longer).nodes[i].role == Candidate ==>
              2 * |Last(longer).nodes[i].votes| <= 1 + |Last(longer).nodes[i].peers|
  {
    var s := Last(run);
    var c := s.nodes[i];
    var p := c.peers[k];
    assert p in c.peers && Granted(s, i, t, p);
    CountStep(c, p);
    hide HandleVoteResult, Run;
    longer := Do(run, ReceiveVoteRep(i, VoteRep(p, i, t, VoteResult(t, true))));
  }

  lemma {:induction false} SizeOfSet(s: seq<nat>)
    ensures |SetOf(s)| <= |s|
    decreases |s|
  {
    if s != [] {
      var n := |s| - 1;
      SizeOfSet(s[..n]);
      assert SetOf(s) == SetOf(s[..n]) + {s[n]} by { assert s == s[..n] + [s[n]]; }
    }
  }

  /** Whoever has the votes of all servers has more than half of them. */
  lemma AllIsEnough(servers: set<nat>, i: nat, c: Core)
    requires Configured(servers, i, c) && i in c.votes && forall j | 0 <= j < |c.peers| :: c.peers[j] in c.votes
    ensures 2 * |c.votes| > 1 + |c.peers|
  {
    assert servers <= SetOf(c.votes);
    SubsetSize(servers, SetOf(c.votes));
    SizeOfSet(c.votes);
  }

  lemma {:induction false} AllCount(run: seq<State>, i: nat, t: nat, k: nat) returns (longer: seq<State>)
    requires Run(LastNewEntry, run) && Counting(Last(run), i, t, k) && Last(run).nodes[i].peers != []
    requires k > 0 && Last(run).nodes[i].role == Candidate ==>
               2 * |Last(run).nodes[i].votes| <= 1 + |Last(run).nodes[i].peers|
    ensures Run(LastNewEntry, longer) && run <= longer && Last(longer).nodes.Keys == Last(run).nodes.Keys
    ensures Leads(Last(longer), i, t)
    decreases |Last(run).nodes[i].peers| - k
  {
    longer := run;
    var c := Last(run).nodes[i];
    if k < |c.peers| {
      var counted := OneCounts(run, i, t, k);
      hide Run;
      longer := AllCount(counted, i, t, k + 1);
    } else if c.role == Candidate {
      AllIsEnough(Last(run).nodes.Keys, i, c);
    }
  }

  /** Node i leads term t, above which there is no node. */
  predicate Leads(s: State, i: nat, t: nat) {
    && i in s.nodes && s.nodes[i].role == Leader && s.nodes[i].term == t
    && forall p <- s.nodes :: s.nodes[p].term <= t
  }

  /** From every reachable state of at least two nodes a leader can be elected. */
  lemma CanElect(run: seq<State>) returns (longer: seq<State>, i: nat, t: nat)
    requires Run(LastNewEntry, run) && |Last(run).nodes| >= 2
    ensures Run(LastNewEntry, longer) && run <= longer && Last(longer).nodes.Keys == Last(run).nodes.Keys
    ensures Leads(Last(longer), i, t)
  {
    var stood;
    stood, i := CanStand(run);
    t := Last(stood).nodes[i].term;
    var c := Last(stood).nodes[i];
    HasPeers(stood, i);
    var asked := Ask(stood, i, t);
    assert c.id == i && c.term == t;
    hide Run, Asking, Latest, Stands, Leads;
    var voted := AllVote(asked, c, 0);
    CountStarts(Last(voted), c);
    assert Last(voted).nodes[i] == c by { AskingIs(Last(voted), c); }
    hide Counting;
    longer := AllCount(voted, i, t, 0);
  }

  lemma AskingIs(s: State, c: Core)
    requires Asking(s, c, |c.peers|)
    ensures c.id in s.nodes && s.nodes[c.id] == c
  {
  }

  lemma HasPeers(run: seq<State>, i: nat)
    requires Run(LastNewEntry, run) && |Last(run).nodes| >= 2 && i in Last(run).nodes
    ensures Last(run).nodes[i].id == i && Last(run).nodes[i].peers != []
  {
    AllRegular(run);
    assert Regular(Last(run), i);
    assert |Last(run).nodes.Keys| == |Last(run).nodes|;
  }

  lemma CanStand(run: seq<State>) returns (longer: seq<State>, i: nat)
    requires Run(LastNewEntry, run) && |Last(run).nodes| >= 2
    ensures Run(LastNewEntry, longer) && run <= longer && Last(longer).nodes.Keys == Last(run).nodes.Keys
    ensures Latest(Last(longer), i) && Stands(Last(longer), i, Last(longer).nodes[i].term)
    ensures |Last(longer).nodes| >= 2
  {
    var nodes := Last(run).nodes;
    assert |nodes.Keys| == |nodes|;
    i := LatestOf(nodes, nodes.Keys);
    var t := HighestTerm(nodes, nodes.Keys);
    hide Run, UpToDate;
    longer := RaiseTerm(run, i, t);
    assert |Last(longer).nodes| == |Last(longer).nodes.Keys|;
  }

  // ----- a command -----

  /** Node i leads term t with the log, whose last entry is of that term; its peer set is ps. */
  predicate Holds(s: State, i: nat, t: nat, log: Log) {
    Leads(s, i, t) && s.nodes[i].log == log && log != [] && log[|log| - 1].term == t
  }

  lemma Command(run: seq<State>, i: nat, t: nat, command: string) returns (longer: seq<State>, log: Log)
    requires Run(LastNewEntry, run) && Leads(Last(run), i, t) && KvStore.Validate(command)
    ensures Run(LastNewEntry, longer) && run <= longer && Last(longer).nodes.Keys == Last(run).nodes.Keys
    ensures Holds(Last(longer), i, t, log) && log[|log| - 1] == Entry(t, |log|, command)
    ensures Last(longer).nodes[i].commit < |log|
  {
    AllRegular(run);
    var c := Last(run).nodes[i];
    assert Regular(Last(run), i);
    log := c.log + [Entry(t, |c.log| + 1, command)];
    assert AppendCommand(c, command) == Some(c.(log := log)) && c.commit <= |c.log|;
    SubmitIs(Last(run), i, command);
    CommandHolds(Last(run), i, t, c.(log := log));
    hide Run, KvStore.Validate, AppendCommand, Regular, Perform, Enabled, Leads, Holds;
    longer := Do(run, Submit(i, command));
  }

  lemma CommandHolds(s: State, i: nat, t: nat, c: Core)
    requires Leads(s, i, t) && c == s.nodes[i].(log := c.log) && c.log != [] && c.log[|c.log| - 1].term == t
    ensures Holds(Update(s, i, c, {}), i, t, c.log)
  {
  }

  lemma HeardHolds(s: State, i: nat, t: nat, log: Log, p: nat, d: Core, sent: set<Message>)
    requires Holds(s, i, t, log) && d.term == t && p != i && p in s.nodes
    ensures var s' := Update(s, p, d, sent);
            Holds(s', i, t, log) && s'.nodes[i] == s.nodes[i] && s'.nodes.Keys == s.nodes.Keys
  {
  }

  lemma SubmitIs(s: State, i: nat, command: string)
    requires i in s.nodes && s.nodes[i].role == Leader && KvStore.Validate(command)
    ensures Enabled(s, Submit(i, command))
    ensures Perform(LastNewEntry, s, Submit(i, command)) == Update(s, i, AppendCommand(s.nodes[i], command).value, {})
  {
    hide KvStore.Validate;
  }

  lemma HearIs(s: State, p: nat, m: Message)
    requires p in s.nodes && m in s.net && m.AppendReq? && m.dst == p
    ensures Enabled(s, ReceiveAppendReq(p, m))
    ensures var (d, reply) := HandleAppendEntries(LastNewEntry, s.nodes[p], m.append);
            Perform(LastNewEntry, s, ReceiveAppendReq(p, m))
            == Update(s, p, d, {AppendRep(p, m.src, m.append.term, m.callIndex, m.probe, reply)})
  {
    hide HandleAppendEntriesAt;
  }

  /** What the leader sends to p for its last entry. */
  function Sent(c: Core, p: nat): Message {
    AppendReq(c.id, p, AppendRequest(c, p, SubmitEntries(c, p, |c.log|)), |c.log|, None)
  }

  lemma Sends(run: seq<State>, i: nat, t: nat, log: Log, p: nat) returns (longer: seq<State>)
    requires Run(LastNewEntry, run) && Holds(Last(run), i, t, log) && p in Last(run).nodes[i].peers
    ensures Run(LastNewEntry, longer) && run <= longer && Last(longer).nodes == Last(run).nodes
    ensures Sent(Last(run).nodes[i], p) in Last(longer).net && Holds(Last(longer), i, t, log)
  {
    AllRegular(run);
    var c := Last(run).nodes[i];
    assert Regular(Last(run), i);
    assert Sent(c, p) in Replications(c, |log|);
    hide Run, Replications, Sent;
    longer := Do(run, Replicate(i, |log|));
    assert Last(longer).nodes == Last(run).nodes;
  }

  /** Node p hears it: it is then in the leader's term, and a refusal is only possible above next index 1. */
  lemma Hears(run: seq<State>, i: nat, t: nat, log: Log, p: nat) returns (longer: seq<State>, reply: AppendResult)
    requires Run(LastNewEntry, run) && Holds(Last(run), i, t, log) && p in Last(run).nodes[i].peers
    requires Sent(Last(run).nodes[i], p) in Last(run).net
    ensures Run(LastNewEntry, longer) && run <= longer && Last(longer).nodes.Keys == Last(run).nodes.Keys
    ensures Holds(Last(longer), i, t, log) && Last(longer).nodes[i] == Last(run).nodes[i]
    ensures AppendRep(p, i, t, |log|, None, reply) in Last(longer).net
    ensures reply.term == t && (!reply.success ==> NextFor(Last(run).nodes[i], p) > 1)
  {
    AllRegular(run);
    var s := Last(run);
    var c := s.nodes[i];
    assert Regular(s, i) && p in s.nodes && p != i && Regular(s, p);
    HearStep(s, i, t, log, p);
    var (d, r) := HandleAppendEntries(LastNewEntry, s.nodes[p], Sent(c, p).append);
    reply := r;
    assert c.id == i;
    HearIs(s, p, Sent(c, p));
    HeardHolds(s, i, t, log, p, d, {AppendRep(p, i, t, |log|, None, reply)});
    assert Sent(c, p).src == i && Sent(c, p).callIndex == |log| && Sent(c, p).append.term == t;
    hide HandleAppendEntries, Run, Regular, Sent, Perform, Enabled, Holds, Leads;
    longer := Do(run, ReceiveAppendReq(p, Sent(c, p)));
  }

  lemma HearStep(s: State, i: nat, t: nat, log: Log, p: nat)
    requires Holds(s, i, t, log) && Regular(s, i) && Regular(s, p) && p != i && p in s.nodes[i].peers
    ensures var (d, reply) := HandleAppendEntries(LastNewEntry, s.nodes[p], Sent(s.nodes[i], p).append);
            d.term == t == reply.term && (!reply.success ==> NextFor(s.nodes[i], p) > 1)
  {
    BatchDecided(LastNewEntry, s.nodes[p], Sent(s.nodes[i], p).append);
    hide HandleAppendEntriesAt, SubmitEntries, PrevTerm;
  }

  lemma LeaderLogStays(c: Core, p: nat, index: nat, reply: AppendResult)
    requires c.threshold == 0
    ensures HandleAppendResult(c, p, index, reply).log == c.log
    ensures HandleAppendResult(c, p, index, reply).peers == c.peers
  {
    var c1 := RecordReply(StepDown(c, reply.term), p, index, reply);
    RecordDecided(StepDown(c, reply.term), p, index, reply);
    ApplyUpToKeepsRest(c1.(commit := index));
    hide ApplyUpTo, RecordReply, Replicated;
  }

  /** More than half of the cluster, the leader included, is known to hold the entry. */
  predicate MostHold(c: Core, index: nat) { 2 * (1 + |Holding(c.acked, index)|) > 1 + |c.peers| }

  /** A positive reply is recorded, and with a majority commits; a refusal moves the next index down. */
  lemma ReplyStep(s: State, i: nat, t: nat, log: Log, p: nat, reply: AppendResult)
    requires Holds(s, i, t, log) && Regular(s, i) && reply.term == t
    requires !reply.success ==> NextFor(s.nodes[i], p) > 1
    ensures var c' := HandleAppendResult(s.nodes[i], p, |log|, reply);
            && c'.role == Leader && c'.term == t && c'.log == log && c'.peers == s.nodes[i].peers
            && c'.acked == AckedAfter(s.nodes[i], p, |log|, reply.success)
            && (c'.commit >= |log| || !MostHold(c', |log|))
            && (!reply.success ==> NextFor(c', p) < NextFor(s.nodes[i], p))
  {
    var c := s.nodes[i];
    LeaderLogStays(c, p, |log|, reply);
    ReplyDecided(c, p, |log|, reply);
    if !reply.success { RefusalDecided(c, p, |log|, reply); }
    hide HandleAppendResult, AckedAfter, Holding;
  }

  lemma ReplyIs(s: State, i: nat, t: nat, p: nat, index: nat, reply: AppendResult)
    requires i in s.nodes && s.nodes[i].term == t && AppendRep(p, i, t, index, None, reply) in s.net
    ensures var step := ReceiveAppendRep(i, AppendRep(p, i, t, index, None, reply));
            && Enabled(s, step)
            && Perform(LastNewEntry, s, step) == Update(s, i, HandleAppendResult(s.nodes[i], p, index, reply), {})
  {
    hide HandleAppendResult;
  }

  lemma Answers(run: seq<State>, i: nat, t: nat, log: Log, p: nat, reply: AppendResult) returns (longer: seq<State>)
    requires Run(LastNewEntry, run) && Holds(Last(run), i, t, log) && reply.term == t
    requires AppendRep(p, i, t, |log|, None, reply) in Last(run).net
    requires !reply.success ==> NextFor(Last(run).nodes[i], p) > 1
    ensures Run(LastNewEntry, longer) && run <= longer && Last(longer).nodes.Keys == Last(run).nodes.Keys
    ensures Holds(Last(longer), i, t, log)
    ensures var c, c' := Last(run).nodes[i], Last(longer).nodes[i];
            && c'.peers == c.peers && c'.acked == AckedAfter(c, p, |log|, reply.success)
            && (c'.commit >= |log| || !MostHold(c', |log|))
            && (!reply.success ==> NextFor(c', p) < NextFor(c, p))
  {
    AllRegular(run);
    var s := Last(run);
    assert Regular(s, i);
    ReplyStep(s, i, t, log, p, reply);
    ReplyIs(s, i, t, p, |log|, reply);
    AnsweredHolds(s, i, t, log, HandleAppendResult(s.nodes[i], p, |log|, reply));
    hide HandleAppendResult, Run, Regular, Perform, Enabled, MostHold, AckedAfter, NextFor, Holds;
    longer := Do(run, ReceiveAppendRep(i, AppendRep(p, i, t, |log|, None, reply)));
  }

  lemma AnsweredHolds(s: State, i: nat, t: nat, log: Log, c: Core)
    requires Holds(s, i, t, log) && c.role == Leader && c.term == t && c.log == log
    ensures i in s.nodes && s.nodes[i].term == t
    ensures var s' := Update(s, i, c, {}); Holds(s', i, t, log) && s'.nodes[i] == c && s'.nodes.Keys == s.nodes.Keys
  {
  }

  /** What the leader knows of its peers only grows. */
  ghost predicate Grows(c: Core, c': Core) {
    c'.peers == c.peers && forall q :: Lookup(c'.acked, q, 0) >= Lookup(c.acked, q, 0)
  }

  /** After as many refusals as there are next indices to go back, the peer has the leader's log. */
  lemma {:induction false} Sync(run: seq<State>, i: nat, t: nat, log: Log, p: nat) returns (longer: seq<State>)
    requires Run(LastNewEntry, run) && Holds(Last(run), i, t, log) && p in Last(run).nodes[i].peers
    ensures Run(LastNewEntry, longer) && run <= longer && Last(longer).nodes.Keys == Last(run).nodes.Keys
    ensures Holds(Last(longer), i, t, log) && Grows(Last(run).nodes[i], Last(longer).nodes[i])
    ensures Lookup(Last(longer).nodes[i].acked, p, 0) >= |log|
    ensures Last(longer).nodes[i].commit >= |log| || !MostHold(Last(longer).nodes[i], |log|)
    decreases NextFor(Last(run).nodes[i], p)
  {
    assert run != [] && i in Last(run).nodes;
    hide Run, Holds, NextFor, MostHold, Sent;
    longer := Sends(run, i, t, log, p);
    var reply;
    longer, reply := Hears(longer, i, t, log, p);
    longer := Answers(longer, i, t, log, p, reply);
    if !reply.success {
      InHolds(Last(longer), i, t, log);
      longer := Sync(longer, i, t, log, p);
    }
  }

  lemma InHolds(s: State, i: nat, t: nat, log: Log)
    requires Holds(s, i, t, log)
    ensures i in s.nodes
  {
  }

  /** The first k peers are known to hold the leader's log. */
  predicate Synced(c: Core, index: nat, k: nat) {
    k <= |c.peers| && forall j | 0 <= j < k :: Lookup(c.acked, c.peers[j], 0) >= index
  }

  lemma GrowsKeeps(c: Core, c': Core, index: nat, k: nat)
    requires Synced(c, index, k) && Grows(c, c') && k < |c.peers| && Lookup(c'.acked, c.peers[k], 0) >= index
    ensures Synced(c', index, k + 1)
  {
  }

  lemma {:induction false} SyncAll(run: seq<State>, i: nat, t: nat, log: Log, k: nat) returns (longer: seq<State>)
    requires Run(LastNewEntry, run) && Holds(Last(run), i, t, log) && Synced(Last(run).nodes[i], |log|, k)
    requires k > 0 ==> Last(run).nodes[i].commit >= |log| || !MostHold(Last(run).nodes[i], |log|)
    requires Last(run).nodes[i].peers != []
    ensures Run(LastNewEntry, longer) && run <= longer && Last(longer).nodes.Keys == Last(run).nodes.Keys
    ensures Holds(Last(longer), i, t, log)
    ensures Synced(Last(longer).nodes[i], |log|, |Last(longer).nodes[i].peers|)
    ensures Last(longer).nodes[i].commit >= |log| || !MostHold(Last(longer).nodes[i], |log|)
    decreases |Last(run).nodes[i].peers| - k
  {
    longer := run;
    var c := Last(run).nodes[i];
    if k < |c.peers| {
      hide Run, MostHold, Synced;
      var synced := Sync(run, i, t, log, c.peers[k]);
      GrowsKeeps(c, Last(synced).nodes[i], |log|, k);
      hide Holds;
      longer := SyncAll(synced, i, t, log, k + 1);
    }
  }

  /** All peers with the leader are more than half. */
  lemma AllSyncedIsMajority(servers: set<nat>, i: nat, c: Core, index: nat)
    requires Configured(servers, i, c) && index > 0 && Synced(c, index, |c.peers|)
    ensures MostHold(c, index)
  {
    forall p | p in servers && p != i ensures p in Holding(c.acked, index) {
      var j :| 0 <= j < |c.peers| && c.peers[j] == p;
    }
    SubsetSize(servers - {i}, Holding(c.acked, index));
    assert |servers - {i}| == |servers| - 1;
  }

  lemma PeerHolds(run: seq<State>, i: nat, t: nat, log: Log, p: nat)
    requires Run(LastNewEntry, run) && Holds(Last(run), i, t, log) && p in Last(run).nodes && p != i
    requires Lookup(Last(run).nodes[i].acked, p, 0) >= |log|
    ensures Last(run).nodes[p].term == t && log <= Last(run).nodes[p].log
  {
    var h := RunHistory(run);
    var c, d := Last(run).nodes[i], Last(run).nodes[p];
    assert NodeOk(h, i, c) && NodeOk(h, p, d);
    AckedInTerm(h, i, c, p, d);
    hide StateOk, ExplainsRun, NodeOk;
    MatchIndexIsTrue(run, i, p);
    var k := Lookup(c.acked, p, 0);
    hide Run;
    assert c.log[..k] == log;
  }

  /** A peer whose positive reply was counted has been in the leader's term. */
  lemma AckedInTerm(h: Hist, i: nat, c: Core, p: nat, d: Core)
    requires NodeOk(h, i, c) && NodeOk(h, p, d) && c.role == Leader && Lookup(c.acked, p, 0) > 0
    ensures d.term >= c.term
  {
    assert MatchFits(h, c, p);
  }

  /** All that is known to be everywhere is committed, applied and there. */
  lemma Finish(run: seq<State>, i: nat, t: nat, log: Log)
    requires Run(LastNewEntry, run) && Holds(Last(run), i, t, log)
    requires Synced(Last(run).nodes[i], |log|, |Last(run).nodes[i].peers|)
    requires Last(run).nodes[i].commit >= |log| || !MostHold(Last(run).nodes[i], |log|)
    ensures var c := Last(run).nodes[i]; c.commit == c.applied == |log| && c.data == KvStore.Replay(log)
    ensures forall p <- Last(run).nodes :: Last(run).nodes[p].term == t && log <= Last(run).nodes[p].log
  {
    LeaderApplied(run, i, t, log);
    hide Run, MostHold, KvStore.Replay, Holds;
    forall p | p in Last(run).nodes ensures Last(run).nodes[p].term == t && log <= Last(run).nodes[p].log {
      if p == i {
        assert Last(run).nodes[i].log == log by { LeaderIs(Last(run), i, t, log); }
      } else {
        PeerSynced(run, i, t, log, p);
        PeerHolds(run, i, t, log, p);
      }
    }
  }

  lemma LeaderIs(s: State, i: nat, t: nat, log: Log)
    requires Holds(s, i, t, log)
    ensures i in s.nodes && s.nodes[i].log == log && s.nodes[i].term == t
  {
  }

  lemma PeerSynced(run: seq<State>, i: nat, t: nat, log: Log, p: nat)
    requires Run(LastNewEntry, run) && i in Last(run).nodes && p in Last(run).nodes && p != i
    requires Synced(Last(run).nodes[i], |log|, |Last(run).nodes[i].peers|)
    ensures Lookup(Last(run).nodes[i].acked, p, 0) >= |log|
  {
    AllRegular(run);
    assert Regular(Last(run), i);
    var c := Last(run).nodes[i];
    var j :| 0 <= j < |c.peers| && c.peers[j] == p;
  }

  lemma LeaderApplied(run: seq<State>, i: nat, t: nat, log: Log)
    requires Run(LastNewEntry, run) && Holds(Last(run), i, t, log)
    requires Synced(Last(run).nodes[i], |log|, |Last(run).nodes[i].peers|)
    requires Last(run).nodes[i].commit >= |log| || !MostHold(Last(run).nodes[i], |log|)
    ensures var c := Last(run).nodes[i];
            c.term == t && c.commit == c.applied == |log| && c.data == KvStore.Replay(log)
  {
    var s := Last(run);
    LeaderIs(s, i, t, log);
    AllRegular(run);
    AllCommitted(s, i, t, log);
    hide Run, Holds, Regular, MostHold, Synced, KvStore.Replay;
    DataOf(run, i);
    assert log[..|log|] == log;
  }

  lemma DataOf(run: seq<State>, i: nat)
    requires Run(LastNewEntry, run) && i in Last(run).nodes
    ensures var c := Last(run).nodes[i]; c.applied <= |c.log| && c.data == KvStore.Replay(c.log[..c.applied])
  {
    ReplicasAgree(run, |run| - 1, i, |run| - 1, i);
    hide Run, KvStore.Replay;
  }

  lemma AllCommitted(s: State, i: nat, t: nat, log: Log)
    requires Holds(s, i, t, log) && Regular(s, i) && Synced(s.nodes[i], |log|, |s.nodes[i].peers|)
    requires s.nodes[i].commit >= |log| || !MostHold(s.nodes[i], |log|)
    ensures var c := s.nodes[i]; c.term == t && c.commit == c.applied == |log| && c.log == log
  {
    AllSyncedIsMajority(s.nodes.Keys, i, s.nodes[i], |log|);
    hide MostHold, Synced, Configured;
  }

  /** From every reachable state of at least two nodes, and for every valid command, the run can go on until a
      leader has committed and applied its whole log, of which the command is the last entry, and every
      node holds that log. */
  lemma CanCommit(run: seq<State>, command: string) returns (longer: seq<State>, i: nat, log: Log)
    requires Run(LastNewEntry, run) && |Last(run).nodes| >= 2 && KvStore.Validate(command)
    ensures Run(LastNewEntry, longer) && run <= longer && Last(longer).nodes.Keys == Last(run).nodes.Keys
    ensures i in Last(longer).nodes && Last(longer).nodes[i].role == Leader
    ensures var c := Last(longer).nodes[i];
            && log != [] && log[|log| - 1] == Entry(c.term, |log|, command)
            && c.log == log && c.commit == c.applied == |log| && c.data == KvStore.Replay(log)
            && forall p <- Last(longer).nodes ::
                 Last(longer).nodes[p].term == c.term && log <= Last(longer).nodes[p].log
  {
    var elected, t;
    elected, i, t := CanElect(run);
    var stored;
    stored, log := Command(elected, i, t, command);
    assert |Last(stored).nodes| == |Last(stored).nodes.Keys| == |Last(run).nodes.Keys| == |Last(run).nodes|;
    HasPeers(stored, i);
    hide Run, MostHold, KvStore.Validate, KvStore.Replay;
    longer := SyncAll(stored, i, t, log, 0);
    Finish(longer, i, t, log);
  }

  // ----- a cluster of one -----

  /** A cluster of a single node never has a leader. */
  lemma {:induction false} LoneNodeNeverLeads(run: seq<State>, k: nat, i: nat)
    requires Run(LastNewEntry, run) && k < |run| && i in run[k].nodes && |run[k].nodes| == 1
    ensures run[k].nodes[i].role != Leader && run[k].net == {}
    decreases k
  {
    if k > 0 {
      assert StepAt(LastNewEntry, run, k);
      var step :| Enabled(run[k - 1], step) && run[k] == Perform(LastNewEntry, run[k - 1], step);
      LoneKeys(run, k, i, step);
      LoneNodeNeverLeads(run, k - 1, i);
      LoneStep(run[k - 1], i, step);
    }
  }

  lemma LoneKeys(run: seq<State>, k: nat, i: nat, step: Step)
    requires Run(LastNewEntry, run) && 0 < k < |run| && i in run[k].nodes && |run[k].nodes| == 1
    requires Enabled(run[k - 1], step) && run[k] == Perform(LastNewEntry, run[k - 1], step)
    ensures run[k].nodes.Keys == run[k - 1].nodes.Keys == {i} && |run[k - 1].nodes| == 1
    ensures step.node == i && run[k - 1].nodes[i].peers == []
  {
    var s, s' := run[k - 1], run[k];
    KeysStay(s, step);
    hide Perform, Enabled;
    assert |s'.nodes.Keys| == |s'.nodes| == |s.nodes.Keys| == |s.nodes|;
    OnlyOne(s.nodes.Keys, i);
    RunPrefix(LastNewEntry, run, k);
    AllRegular(run[..k]);
    assert Last(run[..k]) == s && Regular(s, i);
  }

  lemma KeysStay(s: State, step: Step)
    requires Enabled(s, step)
    ensures step.node in s.nodes && Perform(LastNewEntry, s, step).nodes.Keys == s.nodes.Keys
  {
    hide HandleAppendEntries, HandleReply, HandleVoteResult, HandleRequestVote;
  }

  lemma OnlyOne(s: set<nat>, i: nat)
    requires |s| == 1 && i in s
    ensures s == {i}
  {
    assert |s - {i}| == 0;
  }

  lemma LoneStep(s: State, i: nat, step: Step)
    requires s.net == {} && Enabled(s, step) && step.node == i && s.nodes[i].role != Leader && s.nodes[i].peers == []
    ensures var s' := Perform(LastNewEntry, s, step); s'.nodes[i].role != Leader && s'.net == {}
  {
    hide HandleAppendEntries, HandleReply, HandleVoteResult, HandleRequestVote;
  }
}
