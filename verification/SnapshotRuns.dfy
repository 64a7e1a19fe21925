/** Runs of one node with snapshots, compared step by step with the node that keeps its whole log:
    compaction, installed snapshots and restarts change nothing that can be observed. */
module SnapshotRuns {
  import opened Types
  import opened CoreSteps
  import opened Batch
  import opened Applying
  import opened SnapshotLayer
  import opened Mirror
  import KvStore

  /** A node and the snapshot on its disk. */
  datatype Node = Node(core: Core, saved: Option<Snapshot>)

  /** `source` is the log, up to the snapshot, of the leader that sent it. */
  datatype Event =
    | Campaign
    | Counted(peer: nat, voted: VoteResult)
    | Submit(command: string)
    | Replied(peer: nat, index: nat, reply: AppendResult)
    | Vote(vote: VoteArgs)
    | Append(append: AppendArgs)
    | Compact
    | Install(args: InstallArgs, source: Log)
    | Restart

  /** The snapshot on disk after a handler that may have compacted the log. */
  function SavedAfter(n: Node, c: Core): Option<Snapshot> {
    if c.snapIndex > n.core.snapIndex then Some(Snapshot(c.snapIndex, c.snapTerm, c.data)) else n.saved
  }

  /** Where the log is cut at a clash: as the source does, taking position 0 for index 1, or relative to
      the snapshot. */
  datatype Cut = ByPosition | ByIndex

  function Base(cut: Cut, c: Core): nat { if cut == ByPosition then 0 else c.snapIndex }

  /** The handlers of the source, with either cut. */
  function Perform(rule: CommitRule, cut: Cut, n: Node, e: Event): Node {
    match e
    case Campaign => n.(core := StartElection(n.core))
    case Counted(peer, result) => n.(core := HandleVoteResult(n.core, peer, result).0)
    case Submit(command) => n.(core := Submitted(n.core, command))
    case Replied(peer, index, result) =>
      var c := HandleAppendResult(n.core, peer, index, result);
      Node(c, SavedAfter(n, c))
    case Vote(req) => n.(core := HandleRequestVote(n.core, req).0)
    case Append(req) =>
      var c := HandleAppendEntriesAt(rule, Base(cut, n.core), n.core, req).0;
      Node(c, SavedAfter(n, c))
    case Compact =>
      var c := if TakeSnapshot(n.core).Some? then TakeSnapshot(n.core).value else n.core;
      Node(c, SavedAfter(n, c))
    case Install(args, _) =>
      var (c, r) := InstallSnapshot(n.core, args);
      Node(c, if r.Installed? then Some(args.snapshot) else n.saved)
    case Restart =>
      n.(core := Boot(n.core.id, n.core.peers, Stored(n.core.term, n.core.votedFor, n.core.log, n.saved),
                      n.core.threshold))
  }

  /** A command at a node that may not lead. */
  function Submitted(c: Core, command: string): Core {
    if AppendCommand(c, command).Some? then AppendCommand(c, command).value else c
  }

  function Adopt(whole: Log, source: Log): Log {
    if |source| < |whole| && whole[..|source|] == source then whole else source
  }

  /** A batch that starts inside a snapshot up to index k. */
  predicate Inside(req: AppendArgs, k: nat) { 0 < req.prevLogIndex < k }

  /** A leader's term is heard of and nothing else. */
  function Heard(c: Core, term: nat): Core {
    if term < c.term then c else StepDown(c, term).(role := Follower)
  }

  /** The same events at the node that keeps everything: compaction does nothing, a batch that starts inside
      the snapshot (index k) is turned away, an accepted snapshot
      is the sender's log applied entry by entry, and after a restart everything up to the snapshot is
      applied again from the start. */
  function PerformWhole(rule: CommitRule, w: Core, e: Event, k: nat): Core
    requires k <= |w.log|
  {
    match e
    case Campaign => StartElection(w)
    case Counted(peer, result) => HandleVoteResult(w, peer, result).0
    case Submit(command) => Submitted(w, command)
    case Replied(peer, index, result) => HandleAppendResult(w, peer, index, result)
    case Vote(req) => HandleRequestVote(w, req).0
    case Append(req) => if Inside(req, k) then Heard(w, req.term) else HandleAppendEntries(rule, w, req).0
    case Compact => w
    case Install(args, source) =>
      if args.term < w.term then w
      else
        var w1 := StepDown(w, args.term);
        if args.snapshot.lastIndex <= k then w1
        else
          var log := Adopt(w1.log, source);
          var n := Max(w1.applied, args.snapshot.lastIndex);
          w1.(log := log, commit := n, applied := n, data := KvStore.Replay(log[..Min(n, |log|)]))
    case Restart =>
      w.(role := Follower, votes := [], next := map[], acked := map[],
      commit := k, applied := k, data := KvStore.Replay(w.log[..k]))
  }

  // ----- the relation -----

  ghost predicate SavedFits(whole: Log, n: Node) {
    n.saved == if n.core.snapIndex == 0 then None
    else if n.core.snapIndex <= |whole| then
      Some(Snapshot(n.core.snapIndex, n.core.snapTerm, KvStore.Replay(whole[..n.core.snapIndex])))
    else n.saved
  }

  /** The node with the snapshot mirrors w; the state machine is the replay of the whole log up to
      `applied`, and the snapshot on disk the replay up to its index. */
  ghost predicate Mirrors(n: Node, w: Core) {
    && Represents(w.log, n.core)
    && w == Whole(w.log, n.core)
    && n.core.snapIndex <= w.applied == w.commit <= |w.log|
    && w.data == KvStore.Replay(w.log[..w.applied])
    && SavedFits(w.log, n)
  }

  /** The batch begins where it says or within the log, and not before the entry it names. */
  predicate Meets(req: AppendArgs, last: nat) {
    Numbered(req) && req.prevLogIndex <= Start(req) <= Max(req.prevLogIndex, last)
  }

  /** What the sender of an event vouches for. A batch meets the log and does not contradict what is
      applied, nor, where the cut ignores the snapshot, anything held behind one; a snapshot is not older
      than what is applied, and a log that goes on past it agrees with it; a rejection does not make a
      leader look for a term that it has only inside its snapshot. */
  ghost predicate Guard(cut: Cut, n: Node, w: Core, e: Event) {
    match e
    case Append(req) =>
      Inside(req, n.core.snapIndex) ||
      (&& Meets(req, |w.log|)
       && NoClashUpTo(w.log, Start(req), req.entries, w.applied)
       && (cut == ByPosition && n.core.snapIndex > 0 ==> !Clashes(n.core.snapIndex, n.core.log, req.entries)))
    case Install(args, source) =>
      && Contiguous(0, source) && |source| == args.snapshot.lastIndex
      && args.snapshot.lastTerm == TermAt(source, |source|)
      && args.snapshot.data == KvStore.Replay(source)
      && |source| >= w.applied
      && (|source| < |w.log| ==> w.log[..|source|] == source)
    case Replied(_, _, result) =>
      result.success || result.conflictTerm.None?
      || (Rising(w.log) && !OnlyInside(w.log, n.core.snapIndex, result.conflictTerm.value))
    case _ => true
  }

  // ----- compaction -----

  lemma CompactRefines(whole: Log, c: Core)
    requires Represents(whole, c) && c.snapIndex <= c.applied <= |whole| && TakeSnapshot(c).Some?
    ensures var c' := TakeSnapshot(c).value;
            Represents(whole, c') && Whole(whole, c') == Whole(whole, c) && c'.snapIndex == c.applied > c.snapIndex
  {
    EntriesFromIsSlice(c.snapIndex, c.log, c.applied + 1);
    assert c.log[c.applied - c.snapIndex..] == whole[c.applied..];
    assert c.log[c.applied - c.snapIndex - 1] == whole[c.applied - 1];
  }

  /** A compaction, explicit or automatic, keeps the mirror and saves the replay it stands for. */
  lemma CompactedMirrors(n: Node, c: Core, w: Core)
    requires Mirrors(n.(core := c), w) && n.core.snapIndex == c.snapIndex
    ensures TakeSnapshot(c).Some? ==>
              Mirrors(Node(TakeSnapshot(c).value, SavedAfter(n, TakeSnapshot(c).value)), w)
    ensures Mirrors(Node(AutoSnapshot(c), SavedAfter(n, AutoSnapshot(c))), w)
  {
    if TakeSnapshot(c).Some? {
      CompactRefines(w.log, c);
    }
  }

  // ----- batches -----

  /** A batch from the snapshot on that does not contradict what is applied. */
  ghost predicate BatchGuard(n: Node, w: Core, req: AppendArgs) {
    && Meets(req, |w.log|)
    && !Inside(req, n.core.snapIndex)
    && NoClashUpTo(w.log, Start(req), req.entries, w.applied)
  }

  lemma ApplyOneRefines(whole: Log, c: Core, e: Entry)
    requires Represents(whole, c)
    ensures Represents(whole, Applied(c, e)) && Whole(whole, Applied(c, e)) == Applied(Whole(whole, c), e)
  {
  }

  lemma ApplyStepRefines(whole: Log, c: Core)
    requires Represents(whole, c) && c.snapIndex <= c.applied
    ensures var e, w := GetEntry(c, c.applied + 1), Whole(whole, c);
            && e == GetEntry(w, w.applied + 1)
            && (e.Some? ==>
                  Represents(whole, Applied(c, e.value)) && Applied(w, e.value) == Whole(whole, Applied(c, e.value)))
  {
    SameLookups(whole, c, c.applied + 1);
    var e := GetEntry(c, c.applied + 1);
    if e.Some? { ApplyOneRefines(whole, c, e.value); }
  }

  lemma {:induction false} ApplyRefines(whole: Log, c: Core)
    requires Represents(whole, c) && c.snapIndex <= c.applied
    ensures ApplyUpTo(Whole(whole, c)) == Whole(whole, ApplyUpTo(c))
    ensures Represents(whole, ApplyUpTo(c))
    decreases c.commit - c.applied
  {
    ApplyStepRefines(whole, c);
    ApplyUpToUnfolds(c);
    ApplyUpToUnfolds(Whole(whole, c));
    var e := GetEntry(c, c.applied + 1);
    if c.applied < c.commit && e.Some? {
      ApplyRefines(whole, Applied(c, e.value));
    }
  }

  /** The mirror only looks at the log up to what is applied, and at its rest through `Represents`. */
  lemma {:induction false} LogMirrors(n: Node, w: Core, log: Log, whole: Log)
    requires Mirrors(n, w) && Represents(whole, n.core.(log := log))
    requires w.applied <= |whole| && whole[..w.applied] == w.log[..w.applied]
    ensures Mirrors(n.(core := n.core.(log := log)), w.(log := whole))
  {
    var k := n.core.snapIndex;
    assert whole[..k] == whole[..w.applied][..k] == w.log[..w.applied][..k] == w.log[..k];
  }

  /** Storing the batch, before the commit index moves. */
  lemma StoreMirrors(n: Node, w: Core, req: AppendArgs)
    requires Mirrors(n, w) && BatchGuard(n, w, req) && req.prevLogIndex <= |w.log|
    ensures var c' := n.core.(log := StoreEntries(n.core.snapIndex, n.core.snapIndex, n.core.log, req.entries));
            var w' := w.(log := StoreEntries(0, 0, w.log, req.entries));
            Mirrors(n.(core := c'), w') && req.prevLogIndex + |req.entries| <= |w'.log|
  {
    var g := Start(req);
    StoreRefines(w.log, n.core, g, req.entries);
    MergeKeepsRepeated(w.log, g, req.entries, w.applied);
    MergeHolds(w.log, g, req.entries);
    LogMirrors(n, w, StoreEntries(n.core.snapIndex, n.core.snapIndex, n.core.log, req.entries),
               Merge(w.log, g, req.entries));
  }

  /** Moving the commit index and applying. */
  lemma {:induction false} CommitMirrors(n: Node, w: Core, k: nat)
    requires Mirrors(n, w) && w.commit <= k <= |w.log|
    ensures var c' := ApplyCommitted(n.core.(commit := k));
            Mirrors(Node(c', SavedAfter(n, c')), ApplyCommitted(w.(commit := k)))
  {
    var c1 := n.core.(commit := k);
    ApplyRefines(w.log, c1);
    ApplyUpToReplays(w.(commit := k));
    ApplyUpToKeepsRest(c1);
    var w' := ApplyUpTo(w.(commit := k));
    assert Whole(w.log, c1) == w.(commit := k);
    assert Mirrors(n.(core := ApplyUpTo(c1)), w');
    CompactedMirrors(n, ApplyUpTo(c1), w');
  }

  lemma AcceptMirrors(rule: CommitRule, n: Node, w: Core, req: AppendArgs)
    requires Mirrors(n, w) && BatchGuard(n, w, req) && req.prevLogIndex <= |w.log|
    ensures var c' := AcceptEntriesAt(rule, n.core.snapIndex, n.core, req);
            Mirrors(Node(c', SavedAfter(n, c')), AcceptEntries(rule, w, req))
  {
    StoreMirrors(n, w, req);
    var c1 := n.core.(log := StoreEntries(n.core.snapIndex, n.core.snapIndex, n.core.log, req.entries));
    var w1 := w.(log := StoreEntries(0, 0, w.log, req.entries));
    SameLookups(w1.log, c1, 0);
    if req.leaderCommit > w.commit {
      CommitMirrors(n.(core := c1), w1, NewCommit(rule, w1, req));
    }
  }

  lemma RoleTermMirrors(n: Node, w: Core, term: nat, vote: Option<nat>, role: Role)
    requires Mirrors(n, w)
    ensures Mirrors(n.(core := n.core.(term := term, votedFor := vote, role := role)),
                    w.(term := term, votedFor := vote, role := role))
  {
  }

  lemma {:induction false} ListeningMirrors(rule: CommitRule, n: Node, w: Core, req: AppendArgs)
    requires Mirrors(n, w) && BatchGuard(n, w, req)
    ensures CheckPrev(n.core, req.prevLogIndex, req.prevLogTerm) == Agrees
       <==> CheckPrev(w, req.prevLogIndex, req.prevLogTerm) == Agrees
    ensures CheckPrev(w, req.prevLogIndex, req.prevLogTerm) == Agrees ==>
              var c' := AcceptEntriesAt(rule, n.core.snapIndex, n.core, req);
              Mirrors(Node(c', SavedAfter(n, c')), AcceptEntries(rule, w, req))
  {
    SameCheck(w.log, n.core, req.prevLogIndex, req.prevLogTerm);
    SameLookups(w.log, n.core, req.prevLogIndex);
    if CheckPrev(w, req.prevLogIndex, req.prevLogTerm) == Agrees {
      AcceptMirrors(rule, n, w, req);
    }
  }

  /** A batch of a current term, at a node that already listens. */
  lemma {:induction false} HeardMirrors(rule: CommitRule, n: Node, w: Core, req: AppendArgs)
    requires Mirrors(n, w) && BatchGuard(n, w, req) && n.core.term == req.term && n.core.role == Follower
    ensures var (c', r) := HandleAppendEntriesAt(rule, n.core.snapIndex, n.core, req);
            var (w', s) := HandleAppendEntries(rule, w, req);
            Mirrors(Node(c', SavedAfter(n, c')), w') && r.success == s.success
  {
    ListeningMirrors(rule, n, w, req);
  }

  lemma HearFirst(rule: CommitRule, base: nat, c: Core, req: AppendArgs)
    requires base <= c.snapIndex && req.term >= c.term
    ensures HandleAppendEntriesAt(rule, base, c, req) ==
            HandleAppendEntriesAt(rule, base, StepDown(c, req.term).(role := Follower), req)
  {
  }

  /** With the cut at the right place. */
  lemma {:induction false} IndexCutMirrors(rule: CommitRule, n: Node, w: Core, req: AppendArgs)
    requires Mirrors(n, w) && BatchGuard(n, w, req)
    ensures Mirrors(Perform(rule, ByIndex, n, Append(req)), HandleAppendEntries(rule, w, req).0)
    ensures HandleAppendEntriesAt(rule, n.core.snapIndex, n.core, req).1.success
         == HandleAppendEntries(rule, w, req).1.success
  {
    hide AcceptEntriesAt, CheckPrev, NoClashUpTo, Represents, KvStore.Replay;
    if req.term >= n.core.term {
      var c1 := StepDown(n.core, req.term);
      RoleTermMirrors(n, w, c1.term, c1.votedFor, Follower);
      HearFirst(rule, n.core.snapIndex, n.core, req);
      HearFirst(rule, 0, w, req);
      HeardMirrors(rule, n.(core := c1.(role := Follower)), StepDown(w, req.term).(role := Follower), req);
    }
  }

  lemma InsideIsHeard(rule: CommitRule, base: nat, whole: Log, c: Core, req: AppendArgs)
    requires Represents(whole, c) && base <= c.snapIndex && Inside(req, c.snapIndex)
    ensures var (c', r) := HandleAppendEntriesAt(rule, base, c, req); c' == Heard(c, req.term) && !r.success
  {
    var c2 := StepDown(c, req.term).(role := Follower);
    SameLookups(whole, c2, req.prevLogIndex);
    hide AcceptEntriesAt;
  }

  lemma InsideMirrors(rule: CommitRule, cut: Cut, n: Node, w: Core, req: AppendArgs)
    requires Mirrors(n, w) && Inside(req, n.core.snapIndex)
    ensures Mirrors(Perform(rule, cut, n, Append(req)), Heard(w, req.term))
  {
    InsideIsHeard(rule, Base(cut, n.core), w.log, n.core, req);
    var c := Heard(n.core, req.term);
    hide HandleAppendEntriesAt;
    RoleTermMirrors(n, w, c.term, c.votedFor, c.role);
  }

  /** A batch keeps the mirror, with the source's cut as well as with the right one. */
  lemma AppendMirrors(rule: CommitRule, cut: Cut, n: Node, w: Core, req: AppendArgs)
    requires Mirrors(n, w) && Guard(cut, n, w, Append(req))
    ensures Mirrors(Perform(rule, cut, n, Append(req)), PerformWhole(rule, w, Append(req), n.core.snapIndex))
    ensures HandleAppendEntriesAt(rule, Base(cut, n.core), n.core, req).1.success
         == (!Inside(req, n.core.snapIndex) && HandleAppendEntries(rule, w, req).1.success)
  {
    if Inside(req, n.core.snapIndex) {
      InsideMirrors(rule, cut, n, w, req);
      InsideIsHeard(rule, Base(cut, n.core), w.log, n.core, req);
    } else {
      RestContiguous(w.log, n.core);
      IndexCutMirrors(rule, n, w, req);
      if cut == ByPosition { SourceHandlerIsRight(rule, n.core, req); }
    }
  }

  lemma AcceptedGap(rule: CommitRule, base: nat, c: Core, req: AppendArgs)
    requires base <= c.snapIndex && Numbered(req) && Start(req) > c.snapIndex + |c.log|
    ensures var c' := AcceptEntriesAt(rule, base, c, req);
            c'.snapIndex == c.snapIndex ==> c'.log == c.log + req.entries
  {
    GapAppends(c.snapIndex, base, c.log, c.log, Start(req), req.entries);
    var c1 := c.(log := StoreEntries(c.snapIndex, base, c.log, req.entries));
    hide StoreEntries;
    ApplyUpToKeepsRest(c1.(commit := NewCommit(rule, c1, req)));
    hide NewCommit, ApplyUpTo;
  }

  /** A batch that begins past the end of the log breaks the mirror: unless a snapshot is taken in the same
      call, what the node then holds is the rest of no log. */
  lemma GapBreaksMirror(rule: CommitRule, cut: Cut, n: Node, w: Core, req: AppendArgs, w': Core)
    requires Mirrors(n, w) && !Inside(req, n.core.snapIndex) && HandleAppendEntries(rule, w, req).1.success
    requires Numbered(req) && req.entries != [] && Start(req) > |w.log|
    requires Perform(rule, cut, n, Append(req)).core.snapIndex == n.core.snapIndex
    ensures !Mirrors(Perform(rule, cut, n, Append(req)), w')
  {
    var c := StepDown(n.core, req.term).(role := Follower);
    AcceptedIs(rule, cut, n, w, req);
    AcceptedGap(rule, Base(cut, c), c, req);
    assert c.snapIndex + |c.log| == |w.log|;
    GapBreaksNumbering(c.snapIndex, c.log, Start(req), req.entries);
    var n' := Perform(rule, cut, n, Append(req));
    hide Perform, AcceptEntriesAt, Contiguous, HandleAppendEntriesAt, StepDown;
    if Mirrors(n', w') { RestContiguous(w'.log, n'.core); }
  }

  lemma AcceptedIs(rule: CommitRule, cut: Cut, n: Node, w: Core, req: AppendArgs)
    requires Mirrors(n, w) && !Inside(req, n.core.snapIndex) && HandleAppendEntries(rule, w, req).1.success
    ensures var c := StepDown(n.core, req.term).(role := Follower);
            Perform(rule, cut, n, Append(req)).core == AcceptEntriesAt(rule, Base(cut, c), c, req)
  {
    var c := StepDown(n.core, req.term).(role := Follower);
    SameCheck(w.log, c, req.prevLogIndex, req.prevLogTerm);
    hide CheckPrev, AcceptEntriesAt, Contiguous, KvStore.Replay;
  }

  lemma RestContiguous(whole: Log, c: Core)
    requires Represents(whole, c)
    ensures Contiguous(c.snapIndex, c.log)
  {
    SuffixContiguous(0, whole, c.snapIndex);
  }

  // ----- installed snapshots -----

  /** What is left of the log beside an installed snapshot. */
  lemma KeptBeside(whole: Log, c: Core, k: nat)
    requires Represents(whole, c) && k >= c.snapIndex
    ensures EntriesFrom(c.log, k + 1) == whole[Min(k, |whole|)..]
  {
    EntriesFromIsSlice(c.snapIndex, c.log, k + 1);
    if k <= |whole| { assert c.log[k - c.snapIndex..] == whole[k..]; }
  }

  /** The log the source keeps beside an installed snapshot is right exactly when the old log does not
      go on past the snapshot, or has the snapshot's term at its index. `source` is the sender's log;
      the fourth premise is Log Matching between it and the old one. */
  lemma InstallKeepsRightLogIff(whole: Log, c: Core, args: InstallArgs, source: Log)
    requires Represents(whole, c) && Contiguous(0, source) && |source| == args.snapshot.lastIndex
    requires args.snapshot.lastTerm == TermAt(source, |source|)
    requires args.term >= c.term && |source| > c.snapIndex
    requires |source| <= |whole| && TermAt(whole, |source|) == TermAt(source, |source|) ==> whole[..|source|] == source
    ensures Represents(Adopt(whole, source), InstallSnapshot(c, args).0) <==>
            |whole| <= |source| || TermAt(whole, |source|) == args.snapshot.lastTerm
  {
    var n := |source|;
    KeptBeside(whole, c, n);
    if n < |whole| && whole[..n] == source {
      assert whole[n - 1] == source[n - 1];
    }
  }

  lemma {:induction false} InstallMirrors(rule: CommitRule, cut: Cut, n: Node, w: Core, args: InstallArgs, source: Log)
    requires Mirrors(n, w) && Guard(ByIndex, n, w, Install(args, source))
    ensures Mirrors(Perform(rule, cut, n, Install(args, source)),
                    PerformWhole(rule, w, Install(args, source), n.core.snapIndex))
  {
    hide EntriesFrom, KvStore.Replay, Represents, SavedFits, Contiguous, Max, Min, Adopt;
    if args.term >= n.core.term {
      var c1, w1 := StepDown(n.core, args.term), StepDown(w, args.term);
      RoleTermMirrors(n, w, c1.term, c1.votedFor, c1.role);
      if |source| > c1.snapIndex { TakenMirrors(n.(core := c1), w1, args, source); }
    }
  }

  lemma {:induction false} TakenMirrors(n: Node, w: Core, args: InstallArgs, source: Log)
    requires Mirrors(n, w) && Guard(ByIndex, n, w, Install(args, source)) && |source| > n.core.snapIndex
    requires n.core.term == args.term
    ensures Mirrors(Perform(AsWritten, ByIndex, n, Install(args, source)),
                    PerformWhole(AsWritten, w, Install(args, source), n.core.snapIndex))
  {
    hide Perform, PerformWhole, EntriesFrom, KvStore.Replay, Contiguous, SavedFits, TermAt;
    KeptBeside(w.log, n.core, |source|);
    AdoptedMirrors(n, w, args, source);
    InstallPerforms(n, w, args, source);
  }

  lemma InstallPerforms(n: Node, w: Core, args: InstallArgs, source: Log)
    requires |source| == args.snapshot.lastIndex && |source| > n.core.snapIndex && n.core.term == w.term == args.term
    requires n.core.commit <= |source| && n.core.applied <= |source| && w.applied <= |source|
    requires n.core.snapIndex <= |w.log|
    ensures var k, s, log := |source|, args.snapshot, Adopt(w.log, source);
            && Perform(AsWritten, ByIndex, n, Install(args, source)) ==
               Node(n.core.(snapIndex := k, snapTerm := s.lastTerm, log := EntriesFrom(n.core.log, k + 1),
                    commit := k, applied := k, data := s.data), Some(s))
            && PerformWhole(AsWritten, w, Install(args, source), n.core.snapIndex) ==
               w.(log := log, commit := k, applied := k, data := KvStore.Replay(log[..k]))
  {
    hide KvStore.Replay, EntriesFrom;
  }

  lemma {:induction false} AdoptedMirrors(n: Node, w: Core, args: InstallArgs, source: Log)
    requires Mirrors(n, w) && Guard(ByIndex, n, w, Install(args, source)) && |source| > n.core.snapIndex
    requires EntriesFrom(n.core.log, |source| + 1) == w.log[Min(|source|, |w.log|)..]
    ensures var k, s, log := |source|, args.snapshot, Adopt(w.log, source);
            Mirrors(Node(n.core.(snapIndex := k, snapTerm := s.lastTerm, log := EntriesFrom(n.core.log, k + 1),
                         commit := k, applied := k, data := s.data), Some(s)),
                    w.(log := log, commit := k, applied := k, data := KvStore.Replay(log[..k])))
  {
    var k, log := |source|, Adopt(w.log, source);
    assert log[..k] == source;
    assert log[k - 1] == source[k - 1];
  }

  // ----- restarts -----

  lemma RestartMirrors(rule: CommitRule, cut: Cut, n: Node, w: Core)
    requires Mirrors(n, w)
    ensures Mirrors(Perform(rule, cut, n, Restart), PerformWhole(rule, w, Restart, n.core.snapIndex))
  {
    assert w.log[..0] == [];
  }

  /** Between saving a snapshot at index k and dropping the entries up to it, the disk still holds the
      log from j on. A restart then reads the log right exactly when nothing was left to drop. */
  lemma RestartIsRightIff(whole: Log, id: nat, peers: seq<nat>, disk: Stored, threshold: nat, j: nat, k: nat)
    requires Contiguous(0, whole) && j <= k <= |whole| && disk.log == whole[j..]
    requires disk.snapshot == Some(Snapshot(k, TermAt(whole, k), KvStore.Replay(whole[..k])))
    ensures Represents(whole, Boot(id, peers, disk, threshold)) <==> j == k
  {
  }

  // ----- the node as candidate and leader -----

  lemma {:induction false} LastInRest(whole: Log, snap: nat, n: nat, t: nat)
    requires Contiguous(0, whole) && Rising(whole) && snap <= n <= |whole| && t >= TermAt(whole, snap)
    ensures LastIndexInLog(whole, n, t) ==
            var found := LastIndexInLog(whole[snap..], n - snap, t);
            if found.Some? then found else if snap > 0 && whole[snap - 1].term == t then Some(snap) else None
    decreases n
  {
    if n > snap {
      assert whole[snap..][n - snap - 1] == whole[n - 1];
      if whole[n - 1].term > t { LastInRest(whole, snap, n - 1, t); }
    }
  }

  /** A term older than the snapshot's of which the whole log has an entry. */
  ghost predicate OnlyInside(whole: Log, snap: nat, t: nat) {
    t < TermAt(whole, snap) && exists k :: 0 <= k < |whole| && whole[k].term == t
  }

  lemma {:induction false} FindsIff(log: Log, n: nat, t: nat)
    requires Rising(log) && n <= |log|
    ensures LastIndexInLog(log, n, t).Some? <==> exists k :: 0 <= k < n && log[k].term == t
    decreases n
  {
    if n > 0 && log[n - 1].term > t { FindsIff(log, n - 1, t); }
  }

  /** The search for the last entry of a term gives the same exactly unless the term is only inside the
      snapshot. */
  lemma SameLastOfTermIff(whole: Log, c: Core, t: nat)
    requires Represents(whole, c) && Rising(whole)
    ensures LastIndexForTerm(c, t) == LastIndexForTerm(Whole(whole, c), t) <==> !OnlyInside(whole, c.snapIndex, t)
  {
    if t >= c.snapTerm {
      LastInRest(whole, c.snapIndex, |whole|, t);
    } else {
      FindsIff(whole, |whole|, t);
      RisingRest(whole, c.snapIndex);
      FindsIff(c.log, |c.log|, t);
    }
  }

  lemma RisingRest(whole: Log, snap: nat)
    requires Rising(whole) && snap <= |whole|
    ensures Rising(whole[snap..]) && forall k | 0 <= k < |whole| - snap :: whole[snap..][k].term >= TermAt(whole, snap)
  {
  }

  lemma LeadingMirrors(n: Node, w: Core, next: map<nat, nat>, acked: map<nat, nat>, role: Role, votes: seq<nat>)
    requires Mirrors(n, w)
    ensures Mirrors(n.(core := n.core.(next := next, acked := acked, role := role, votes := votes)),
                    w.(next := next, acked := acked, role := role, votes := votes))
  {
  }

  lemma GrownMirrors(n: Node, w: Core, command: string)
    requires Mirrors(n, w)
    ensures var e := Entry(n.core.term, LastLogIndex(n.core) + 1, command);
            && LastLogIndex(n.core) == LastLogIndex(w)
            && Mirrors(n.(core := n.core.(log := n.core.log + [e])), w.(log := w.log + [e]))
  {
    SameLookups(w.log, n.core, 0);
    var e := Entry(n.core.term, LastLogIndex(n.core) + 1, command);
    assert (w.log + [e])[n.core.snapIndex..] == n.core.log + [e];
    SameTermAt(w.log, w.log + [e], n.core.snapIndex);
    assert (w.log + [e])[..w.applied] == w.log[..w.applied];
    LogMirrors(n, w, n.core.log + [e], w.log + [e]);
  }

  lemma CountedMirrors(n: Node, w: Core, peer: nat, result: VoteResult)
    requires Mirrors(n, w)
    ensures HandleVoteResult(n.core, peer, result).1 == HandleVoteResult(w, peer, result).1
    ensures Mirrors(n.(core := HandleVoteResult(n.core, peer, result).0), HandleVoteResult(w, peer, result).0)
  {
    var c1, w1 := StepDown(n.core, result.term), StepDown(w, result.term);
    RoleTermMirrors(n, w, c1.term, c1.votedFor, c1.role);
    assert w1.role == c1.role && w1.votes == c1.votes && w1.peers == c1.peers && w1.next == c1.next
           && w1.acked == c1.acked;
    hide Mirrors, BecomeLeader;
    if c1.role == Candidate {
      var votes := if result.granted && peer !in c1.votes then c1.votes + [peer] else c1.votes;
      LeadingMirrors(n.(core := c1), w1, c1.next, c1.acked, Candidate, votes);
      if |votes| >= Majority(c1) {
        WonMirrors(n.(core := c1.(votes := votes)), w1.(votes := votes));
      }
    }
  }

  lemma WonMirrors(n: Node, w: Core)
    requires Mirrors(n, w)
    ensures Mirrors(n.(core := BecomeLeader(n.core)), BecomeLeader(w))
  {
    GrownMirrors(n, w, NOOP_COMMAND);
    var c := BecomeLeader(n.core);
    LeadingMirrors(n.(core := n.core.(log := c.log)), w.(log := BecomeLeader(w).log), c.next, c.acked, Leader, c.votes);
  }

  lemma RecordedMirrors(n: Node, w: Core, peer: nat, index: nat, result: AppendResult)
    requires Mirrors(n, w) && Guard(ByIndex, n, w, Replied(peer, index, result))
    ensures Mirrors(n.(core := RecordReply(n.core, peer, index, result)), RecordReply(w, peer, index, result))
  {
    if !result.success && result.conflictTerm.Some? { SameLastOfTermIff(w.log, n.core, result.conflictTerm.value); }
    var c := RecordReply(n.core, peer, index, result);
    hide LastIndexForTerm;
    assert c.next == RecordReply(w, peer, index, result).next && c.acked == RecordReply(w, peer, index, result).acked;
    LeadingMirrors(n, w, c.next, c.acked, c.role, c.votes);
  }

  lemma RepliedMirrors(n: Node, w: Core, peer: nat, index: nat, result: AppendResult)
    requires Mirrors(n, w) && Guard(ByIndex, n, w, Replied(peer, index, result))
    ensures var c := HandleAppendResult(n.core, peer, index, result);
            Mirrors(Node(c, SavedAfter(n, c)), HandleAppendResult(w, peer, index, result))
  {
    var c1, w1 := StepDown(n.core, result.term), StepDown(w, result.term);
    RoleTermMirrors(n, w, c1.term, c1.votedFor, c1.role);
    if c1.role == Leader {
      RecordedMirrors(n.(core := c1), w1, peer, index, result);
      var c2, w2 := RecordReply(c1, peer, index, result), RecordReply(w1, peer, index, result);
      SameLookups(w2.log, c2, index);
      CommitCountMirrors(n.(core := c2), w2, index);
    }
  }

  lemma CommitCountMirrors(n: Node, w: Core, index: nat)
    requires Mirrors(n, w)
    ensures var c := CommitCounted(n.core, index); Mirrors(Node(c, SavedAfter(n, c)), CommitCounted(w, index))
  {
    SameLookups(w.log, n.core, index);
    if index > w.commit && index <= |w.log| { CommitMirrors(n, w, index); }
  }

  lemma CampaignMirrors(n: Node, w: Core)
    requires Mirrors(n, w)
    ensures Mirrors(n.(core := StartElection(n.core)), StartElection(w))
  {
    var c := StartElection(n.core);
    RoleTermMirrors(n, w, c.term, c.votedFor, Candidate);
  }

  lemma SubmitMirrors(n: Node, w: Core, command: string)
    requires Mirrors(n, w)
    ensures Mirrors(n.(core := Submitted(n.core, command)), Submitted(w, command))
  {
    assert w.role == n.core.role && w.term == n.core.term;
    GrownMirrors(n, w, command);
    hide Mirrors;
  }

  lemma VoteMirrors(n: Node, w: Core, req: VoteArgs)
    requires Mirrors(n, w)
    ensures HandleRequestVote(n.core, req).1 == HandleRequestVote(w, req).1
    ensures Mirrors(n.(core := HandleRequestVote(n.core, req).0), HandleRequestVote(w, req).0)
  {
    SameVotes(w.log, n.core, req);
    var c := HandleRequestVote(n.core, req).0;
    RoleTermMirrors(n, w, c.term, c.votedFor, c.role);
  }

  lemma CompactMirrors(n: Node, w: Core)
    requires Mirrors(n, w)
    ensures Mirrors(Perform(AsWritten, ByIndex, n, Compact), w)
  {
    CompactedMirrors(n, n.core, w);
  }

  // ----- the source's handlers -----

  /** The source's batch handler, which cuts the log as if there were no snapshot, is the one with the right
      cut whenever no snapshot was taken or the batch clashes with nothing held. */
  lemma SourceHandlerIsRight(rule: CommitRule, c: Core, req: AppendArgs)
    requires Contiguous(c.snapIndex, c.log) && Meets(req, c.snapIndex + |c.log|)
    requires c.snapIndex == 0 || !Clashes(c.snapIndex, c.log, req.entries)
    ensures HandleAppendEntries(rule, c, req) == HandleAppendEntriesAt(rule, c.snapIndex, c, req)
  {
    assert LastLogIndex(c) == c.snapIndex + |c.log|;
    if req.prevLogIndex <= c.snapIndex + |c.log| && c.snapIndex > 0 {
      SameStore(c.snapIndex, c.log, Start(req), req.entries);
    }
    SameStoreSameHandler(rule, c, req);
  }

  lemma {:induction false} SameStore(snap: nat, log: Log, prev: nat, entries: Log)
    requires Contiguous(snap, log) && prev <= snap + |log| && Contiguous(prev, entries) && !Clashes(snap, log, entries)
    ensures StoreEntries(snap, 0, log, entries) == StoreEntries(snap, snap, log, entries)
    decreases |entries|
  {
    if entries != [] {
      var n := |entries| - 1;
      assert entries == entries[..n] + [entries[n]];
      PartGrows(snap, log, entries[..n], entries[n]);
      SameStore(snap, log, prev, entries[..n]);
      BatchStored(snap, log, prev, entries[..n]);
      CleanCut(snap, log, StoreEntries(snap, 0, log, entries[..n]), prev + n, entries[n]);
      hide StoreEntry, DiskEntries, Clashes;
    }
  }

  lemma CleanCut(snap: nat, log: Log, m: Log, upTo: nat, e: Entry)
    requires Clean(snap, log, m, m, upTo) && e.index == upTo + 1 && !ClashAt(snap, log, e)
    ensures StoreEntry(snap, 0, m, e) == StoreEntry(snap, snap, m, e)
  {
  }

  lemma SameStoreSameHandler(rule: CommitRule, c: Core, req: AppendArgs)
    requires StoreEntries(c.snapIndex, 0, c.log, req.entries)
          == StoreEntries(c.snapIndex, c.snapIndex, c.log, req.entries)
             || req.prevLogIndex > LastLogIndex(c)
    ensures HandleAppendEntries(rule, c, req) == HandleAppendEntriesAt(rule, c.snapIndex, c, req)
  {
    hide StoreEntries, ApplyCommitted, NewCommit;
  }

  /** A node that holds `whole` and has applied `applied` entries of it. */
  ghost predicate Holds(whole: Log, c: Core, applied: nat) {
    && Represents(whole, c) && c.snapIndex <= c.applied == applied <= c.commit <= |whole|
    && c.data == KvStore.Replay(whole[..applied])
  }

  ghost predicate DataRight(whole: Log, c: Core) {
    c.applied <= |whole| && c.data == KvStore.Replay(whole[..c.applied])
  }

  /** A log that goes on from `prefix` with no-ops. */
  function Padded(prefix: Log, n: nat): (log: Log)
    requires |prefix| <= n
    ensures |log| == n && log[..|prefix|] == prefix
    ensures forall k | |prefix| <= k < n :: log[k] == Entry(0, k + 1, NOOP_COMMAND)
  {
    prefix + seq(n - |prefix|, i requires 0 <= i < n - |prefix| => Entry(0, |prefix| + i + 1, NOOP_COMMAND))
  }

  lemma {:induction false} NoopsKeep(log: Log, k: nat)
    requires k <= |log| && forall i | k <= i < |log| :: log[i].command == NOOP_COMMAND
    ensures KvStore.Replay(log) == KvStore.Replay(log[..k])
    decreases |log|
  {
    if k == |log| {
      assert log[..k] == log;
    } else {
      NoopsKeep(log[..|log| - 1], k);
      assert log[..|log| - 1][..k] == log[..k];
    }
  }

  /** For every log up to an index and every later point there is a continuation whose replay differs. */
  lemma LosingLogDiffers(prefix: Log, applied: nat) returns (whole: Log)
    requires Contiguous(0, prefix) && |prefix| < applied
    ensures Contiguous(0, whole) && |whole| == applied && whole[..|prefix|] == prefix
    ensures KvStore.Replay(whole) != KvStore.Replay(prefix)
  {
    var data := KvStore.Replay(prefix);
    var value := if "k" in data && data["k"] == "a" then "b" else "a";
    var init := Padded(prefix, applied - 1);
    whole := init + [Entry(0, applied, "SET " + "k" + " " + value)];
    assert whole[..|prefix|] == init[..|prefix|];
    assert forall k | 0 <= k < |prefix| :: whole[k] == whole[..|prefix|][k] == prefix[k];
    NoopsKeep(init, |prefix|);
    KvStore.SetStores(data, "k", value);
    assert whole[..applied - 1] == init;
    assert "a"[0] != "b"[0];
    hide KvStore.ApplyCommand;
    assert KvStore.Replay(whole) == data["k" := value];
    assert KvStore.Replay(whole)["k"] == value;
  }

  lemma OldInstallLoses(prefix: Log, applied: nat, args: InstallArgs) returns (whole: Log, c: Core)
    requires Contiguous(0, prefix) && prefix != [] && args.snapshot.lastIndex == |prefix| < applied
    requires args.snapshot.data == KvStore.Replay(prefix)
    ensures Holds(whole, c, applied) && |prefix| <= |whole| && whole[..|prefix|] == prefix
    ensures c.snapIndex < |prefix| && args.term >= c.term && !DataRight(whole, InstallSnapshot(c, args).0)
  {
    whole := LosingLogDiffers(prefix, applied);
    c := Boot(0, [], Stored(0, None, whole, None), 0).(commit := applied, applied := applied,
    data := KvStore.Replay(whole));
    assert whole[..applied] == whole && whole[0..] == whole;
    hide KvStore.Replay, EntriesFrom;
  }

  /** An installed snapshot of the first k entries leaves the state machine right, whatever the entries
      after it, exactly when it is not older than what is applied. */
  lemma OldInstallGoesBack(prefix: Log, applied: nat, args: InstallArgs)
    requires Contiguous(0, prefix) && prefix != [] && args.snapshot.lastIndex == |prefix|
    requires args.snapshot.data == KvStore.Replay(prefix)
    ensures (forall whole, c | Holds(whole, c, applied) && |prefix| <= |whole| && whole[..|prefix|] == prefix
                               && c.snapIndex < |prefix| && args.term >= c.term
               :: DataRight(whole, InstallSnapshot(c, args).0))
       <==> |prefix| >= applied
  {
    if |prefix| >= applied {
      hide KvStore.Replay, EntriesFrom, Represents;
      forall whole, c | Holds(whole, c, applied) && |prefix| <= |whole| && whole[..|prefix|] == prefix
                        && c.snapIndex < |prefix| && args.term >= c.term
        ensures DataRight(whole, InstallSnapshot(c, args).0)
      {
        InstallIsRight(whole, c, args);
      }
    } else {
      var whole, c := OldInstallLoses(prefix, applied, args);
    }
  }

  lemma InstallIsRight(whole: Log, c: Core, args: InstallArgs)
    requires c.applied <= args.snapshot.lastIndex && c.snapIndex < args.snapshot.lastIndex <= |whole|
    requires args.term >= c.term && args.snapshot.data == KvStore.Replay(whole[..args.snapshot.lastIndex])
    ensures DataRight(whole, InstallSnapshot(c, args).0)
  {
    hide KvStore.Replay, EntriesFrom;
  }

  /** A node that has applied a write loses it to a snapshot of the entry before. */
  lemma OldInstallLosesWrite(id: nat, peers: seq<nat>)
    ensures var log := [Entry(1, 1, NOOP_COMMAND), Entry(1, 2, "SET " + "k" + " " + "v")];
            var c := Boot(id, peers, Stored(1, None, log, None), 0).(commit := 2, applied := 2,
                     data := KvStore.Replay(log));
            var c' := InstallSnapshot(c, InstallArgs(1, id, Snapshot(1, 1, KvStore.Replay(log[..1])))).0;
            c.data == map["k" := "v"] && c'.applied == 2 && c'.data == map[]
  {
    var log := [Entry(1, 1, NOOP_COMMAND), Entry(1, 2, "SET " + "k" + " " + "v")];
    assert log[..1][..0] == [];
    assert KvStore.Replay(log[..1]) == map[];
    KvStore.SetStores(map[], "k", "v");
  }

  // ----- every run -----

  /** A node that starts without a snapshot mirrors itself. */
  lemma FreshMirrors(id: nat, peers: seq<nat>, term: nat, vote: Option<nat>, log: Log, threshold: nat)
    requires Contiguous(0, log)
    ensures var c := Boot(id, peers, Stored(term, vote, log, None), threshold);
            Mirrors(Node(c, None), Whole(log, c))
  {
    assert log[0..] == log && log[..0] == [];
  }

  /** One event keeps the mirror. */
  lemma {:induction false} EventMirrors(rule: CommitRule, cut: Cut, n: Node, w: Core, e: Event)
    requires Mirrors(n, w) && Guard(cut, n, w, e)
    ensures Mirrors(Perform(rule, cut, n, e), PerformWhole(rule, w, e, n.core.snapIndex))
  {
    hide Mirrors, StartElection, HandleVoteResult, HandleAppendResult, HandleRequestVote, Heard;
    hide HandleAppendEntriesAt, InstallSnapshot, Boot, Submitted, SavedAfter, TakeSnapshot, KvStore.Replay;
    match e
    case Campaign => CampaignMirrors(n, w);
    case Counted(peer, result) => CountedMirrors(n, w, peer, result);
    case Submit(command) => SubmitMirrors(n, w, command);
    case Replied(peer, index, result) => RepliedMirrors(n, w, peer, index, result);
    case Vote(req) => VoteMirrors(n, w, req);
    case Append(req) => AppendMirrors(rule, cut, n, w, req);
    case Compact => CompactMirrors(n, w);
    case Install(args, source) => InstallMirrors(rule, cut, n, w, args, source);
    case Restart => RestartMirrors(rule, cut, n, w);
  }

  ghost predicate GuardedRun(rule: CommitRule, cut: Cut, n: Node, w: Core, events: seq<Event>)
    requires n.core.snapIndex <= |w.log|
    decreases |events|
  {
    events == [] ||
    (&& Guard(cut, n, w, events[0])
     && var n', w' := Perform(rule, cut, n, events[0]), PerformWhole(rule, w, events[0], n.core.snapIndex);
     && n'.core.snapIndex <= |w'.log|
     && GuardedRun(rule, cut, n', w', events[1..]))
  }

  ghost function Runs(rule: CommitRule, cut: Cut, n: Node, w: Core, events: seq<Event>): (Node, Core)
    requires n.core.snapIndex <= |w.log| && GuardedRun(rule, cut, n, w, events)
    decreases |events|
  {
    if events == [] then (n, w)
    else
      Runs(rule, cut, Perform(rule, cut, n, events[0]),
           PerformWhole(rule, w, events[0], n.core.snapIndex), events[1..])
  }

  /** Through any sequence of elections, votes, commands, replies, batches, compactions, installed
      snapshots and restarts the node with a snapshot, of the source's own cut as of the right one, mirrors
      the node with the whole log; in particular its state machine is the replay of the whole log up to
      `applied`, and so are the lookups, answers and logs. */
  lemma {:induction false} SnapshotRunsRefine(rule: CommitRule, cut: Cut, n: Node, w: Core, events: seq<Event>)
    requires Mirrors(n, w) && GuardedRun(rule, cut, n, w, events)
    ensures var (n', w') := Runs(rule, cut, n, w, events);
            && Mirrors(n', w')
            && n'.core.data == KvStore.Replay(w'.log[..n'.core.applied])
            && n'.core.snapIndex <= n'.core.applied == n'.core.commit <= |w'.log| == LastLogIndex(n'.core)
    decreases |events|
  {
    if events == [] {
      SameLookups(w.log, n.core, 0);
    } else {
      EventMirrors(rule, cut, n, w, events[0]);
      SnapshotRunsRefine(rule, cut, Perform(rule, cut, n, events[0]),
                         PerformWhole(rule, w, events[0], n.core.snapIndex), events[1..]);
    }
  }
}
