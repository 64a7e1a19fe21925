/** What clients see of a run (src/api/client_http.rs:218-300, chaos-test/src/client.rs:109-290): the writes and
    reads they record are linearizable, if confirmed reads begin at a leader with nothing of an earlier
    term left to commit, and no write takes effect twice. */
module Clients {
  import opened Types
  import opened CoreSteps
  import opened Cluster
  import opened Safety
  import opened ReadIndex
  import opened Origins
  import opened Linearizability
  import opened Locality
  import opened LogOrder
  import opened History
  import opened Invariant
  import opened CommitBound
  import opened Disks
  import opened Owing
  import KvStore

  /** What became of an operation: the steps of the run at which its command was appended, one for each time
      the client tried again; or the read that was answered, begun at one time, confirmed and answered at
      later ones. Times are positions in the run. */
  datatype Call =
    | Sent(attempts: set<nat>)
    | Asked(node: nat, begun: nat, confirmed: nat, voters: set<nat>, answered: nat)

  datatype Record = Record(run: seq<State>, steps: seq<Step>, ops: seq<Operation>, calls: seq<Call>)

  // ----- what a record says -----

  /** Operation j is what step x submitted. */
  predicate Tried(r: Record, j: nat, x: nat) {
    && j < |r.calls| && r.calls[j].Sent? && x in r.calls[j].attempts
    && x < |r.steps| && r.steps[x].Submit? && At(r.run, x, r.steps[x].node)
  }

  function EntryOf(r: Record, x: nat): Entry
    requires x < |r.steps| && r.steps[x].Submit? && At(r.run, x, r.steps[x].node)
  {
    Origins.Submitted(r.run[x].nodes[r.steps[x].node], r.steps[x].command)
  }

  /** At time b the leader that appended the entry of step x still leads the term and has applied it
      (RaftServer.SubmitAnswers). */
  predicate Answered(r: Record, x: nat, b: nat)
    requires x < |r.steps| && r.steps[x].Submit? && At(r.run, x, r.steps[x].node)
  {
    && x < b && At(r.run, b, r.steps[x].node)
    && var c := r.run[b].nodes[r.steps[x].node];
    && c.role == Leader && c.term == EntryOf(r, x).term && c.applied >= EntryOf(r, x).index
  }

  predicate TriedInTime(r: Record, j: nat, x: nat)
    requires j < |r.ops| && r.ops[j].kind.Write?
  {
    && Tried(r, j, x) && r.ops[j].invoke <= x
    && r.steps[x].command == "SET " + r.ops[j].key + " " + r.ops[j].kind.value
  }

  ghost predicate WriteRecorded(r: Record, j: nat)
    requires j < |r.ops| == |r.calls| && r.ops[j].kind.Write?
  {
    var op := r.ops[j];
    && r.calls[j].Sent? && ' ' !in op.key
    && (forall x <- r.calls[j].attempts :: TriedInTime(r, j, x))
    && (op.result == Error ||
        (op.result == WriteOk && exists x: nat, b: nat :: Tried(r, j, x) && Answered(r, x, b) && b <= op.complete))
  }

  /** The answer to a read comes from a node that has applied its read index. */
  ghost predicate ReadRecorded(r: Record, j: nat)
    requires j < |r.ops| == |r.calls| && r.ops[j].kind.Read?
  {
    var op, call := r.ops[j], r.calls[j];
    call.Asked? &&
    (op.result == Error ||
     (&& op.invoke <= call.begun && call.answered <= op.complete
      && ReadConfirmed(r.run, call.begun, call.confirmed, call.node, call.voters)
      && OnlyOwnBeyond(r.run[call.begun].nodes[call.node])
      && call.confirmed <= call.answered && At(r.run, call.answered, call.node)
      && var c := r.run[call.answered].nodes[call.node];
      && c.applied >= r.run[call.begun].nodes[call.node].commit
      && op.result == ReadOk(Get(c.data, op.key))))
  }

  function AppliedLog(run: seq<State>, b: nat, i: nat): Log
    requires At(run, b, i)
  {
    run[b].nodes[i].log[..Min(run[b].nodes[i].applied, |run[b].nodes[i].log|)]
  }

  ghost predicate EverApplied(r: Record, e: Entry) {
    exists b: nat, i: nat :: At(r.run, b, i) && e in AppliedLog(r.run, b, i)
  }

  /** No write takes effect twice: of all its attempts at most one is ever applied. */
  ghost predicate AppliedOnce(r: Record) {
    forall j, x, y | Tried(r, j, x) && Tried(r, j, y) ::
      EverApplied(r, EntryOf(r, x)) && EverApplied(r, EntryOf(r, y)) ==> x == y
  }

  /** All that was submitted in the run is in the record, under one operation. */
  ghost predicate Complete(r: Record) {
    && (forall x | 0 <= x < |r.steps| && r.steps[x].Submit? :: exists j :: Tried(r, j, x))
    && (forall j, k, x | Tried(r, j, x) && Tried(r, k, x) :: j == k)
  }

  ghost predicate Accounted(r: Record) {
    && |r.ops| == |r.calls|
    && (forall j | 0 <= j < |r.ops| :: if r.ops[j].kind.Write? then WriteRecorded(r, j) else ReadRecorded(r, j))
    && Complete(r)
  }

  ghost predicate Recorded(r: Record) { Traced(r.run, r.steps) && Accounted(r) }

  // ----- all that was ever applied is one log -----

  ghost predicate Reaches(run: seq<State>, p: Log) {
    p == [] || exists b: nat, i: nat :: At(run, b, i) && p == AppliedLog(run, b, i)
  }

  ghost predicate Covers(run: seq<State>, p: Log, b: nat, i: nat) { At(run, b, i) ==> AppliedLog(run, b, i) <= p }

  lemma Longer(run: seq<State>, p: Log, b: nat, i: nat) returns (q: Log)
    requires Run(LastNewEntry, run) && Reaches(run, p) && At(run, b, i)
    ensures Reaches(run, q) && p <= q && AppliedLog(run, b, i) <= q
  {
    q := if |p| >= |AppliedLog(run, b, i)| then p else AppliedLog(run, b, i);
    if p != [] {
      var b': nat, i': nat :| At(run, b', i') && p == AppliedLog(run, b', i');
      StateMachineSafety(run, b, i, b', i');
    }
  }

  lemma {:induction false} LongestAt(run: seq<State>, p: Log, b: nat, s: set<nat>) returns (q: Log)
    requires Run(LastNewEntry, run) && Reaches(run, p) && b < |run|
    ensures Reaches(run, q) && p <= q && forall i <- s :: Covers(run, q, b, i)
    decreases |s|
  {
    q := p;
    if s != {} {
      var i :| i in s;
      var q' := LongestAt(run, p, b, s - {i});
      q := q';
      if At(run, b, i) { q := Longer(run, q', b, i); }
      forall k <- s ensures Covers(run, q, b, k) { assert k == i || Covers(run, q', b, k); }
    }
  }

  lemma {:induction false} LongestBefore(run: seq<State>, n: nat) returns (p: Log)
    requires Run(LastNewEntry, run) && n <= |run|
    ensures Reaches(run, p) && forall b: nat, i: nat | b < n :: Covers(run, p, b, i)
    decreases n
  {
    p := [];
    if n > 0 {
      var q := LongestBefore(run, n - 1);
      p := LongestAt(run, q, n - 1, run[n - 1].nodes.Keys);
      forall b: nat, i: nat | b < n ensures Covers(run, p, b, i) {
        if b < n - 1 { assert Covers(run, q, b, i); }
      }
    }
  }

  /** The log of all that is ever applied. */
  ghost predicate Whole(run: seq<State>, p: Log) {
    Reaches(run, p) && forall b: nat, i: nat {:trigger Covers(run, p, b, i)} :: Covers(run, p, b, i)
  }

  // ----- the places of the operations in that log -----

  predicate InWhole(p: Log, e: Entry) { 1 <= e.index <= |p| && p[e.index - 1] == e }

  /** Which attempt of a write took effect. */
  ghost predicate Effect(r: Record, p: Log, j: nat, x: nat) { Tried(r, j, x) && InWhole(p, EntryOf(r, x)) }

  /** The place of an operation that took effect: by its entry or by how much was applied for its answer. */
  ghost predicate Goes(r: Record, p: Log, j: nat, place: nat) {
    && j < |r.ops| == |r.calls|
    && (if r.ops[j].kind.Write? then exists x: nat :: Effect(r, p, j, x) && place == 2 * EntryOf(r, x).index
        else
          && r.ops[j].result != Error && r.calls[j].Asked? && At(r.run, r.calls[j].answered, r.calls[j].node)
          && place == 2 * r.run[r.calls[j].answered].nodes[r.calls[j].node].applied + 1)
  }

  ghost predicate CanGo(r: Record, p: Log, j: nat) { exists place: nat :: Goes(r, p, j, place) }

  lemma {:induction false} PlaceFirst(r: Record, p: Log, n: nat) returns (at: Places)
    requires n <= |r.ops|
    ensures forall j: nat :: j in at <==> j < n && CanGo(r, p, j)
    ensures forall j <- at :: Goes(r, p, j, at[j])
    decreases n
  {
    at := map[];
    if n > 0 {
      at := PlaceFirst(r, p, n - 1);
      if CanGo(r, p, n - 1) {
        var place: nat :| Goes(r, p, n - 1, place);
        at := at[n - 1 := place];
      }
    }
  }

  ghost predicate Sound(r: Record, p: Log) { Recorded(r) && AppliedOnce(r) && Whole(r.run, p) }

  lemma AppliedIsPrefix(r: Record, p: Log, b: nat, i: nat)
    requires Sound(r, p) && At(r.run, b, i)
    ensures var c := r.run[b].nodes[i];
            && c.applied <= |c.log| && c.applied <= |p| && c.log[..c.applied] == p[..c.applied]
            && c.data == KvStore.Replay(p[..c.applied])
  {
    TracedIsRun(r.run, r.steps);
    ReplicasAgree(r.run, b, i, b, i);
    assert Covers(r.run, p, b, i);
  }

  lemma TriedSubmits(r: Record, j: nat, x: nat)
    requires Recorded(r) && Tried(r, j, x)
    ensures Origins.Submits(r.run, r.steps, x, EntryOf(r, x))
    ensures j < |r.ops| && r.ops[j].kind.Write? && TriedInTime(r, j, x) && EntryOf(r, x).command != NOOP_COMMAND
  {
    assert if r.ops[j].kind.Write? then WriteRecorded(r, j) else ReadRecorded(r, j);
    assert TriedInTime(r, j, x);
    assert r.steps[x].command[0] == 'S';
  }

  lemma WriteIsPlaced(r: Record, p: Log, j: nat, place: nat)
    requires Sound(r, p) && Goes(r, p, j, place) && r.ops[j].kind.Write?
    ensures WritePlaced(p, r.ops[j], place)
  {
    var x: nat :| Effect(r, p, j, x) && place == 2 * EntryOf(r, x).index;
    TriedSubmits(r, j, x);
    assert WriteRecorded(r, j);
  }

  lemma ReadIsPlaced(r: Record, p: Log, j: nat, place: nat)
    requires Sound(r, p) && Goes(r, p, j, place) && r.ops[j].kind.Read?
    ensures ReadPlaced(p, r.ops[j], place)
  {
    assert ReadRecorded(r, j);
    var b, i := r.calls[j].answered, r.calls[j].node;
    AppliedIsPrefix(r, p, b, i);
    hide Sound, ReadConfirmed, OnlyOwnBeyond, KvStore.Replay;
    assert place / 2 == r.run[b].nodes[i].applied;
  }

  /** An acknowledged attempt took effect: the leader still has the entry and has applied it. */
  lemma AnsweredInWhole(r: Record, p: Log, x: nat, b: nat)
    requires Sound(r, p) && x < |r.steps| && r.steps[x].Submit? && At(r.run, x, r.steps[x].node) && Answered(r, x, b)
    ensures InWhole(p, EntryOf(r, x))
  {
    var i, e := r.steps[x].node, EntryOf(r, x);
    LeaderKeeps(r.run, r.steps, x, e, b);
    AppliedIsPrefix(r, p, b, i);
    var c := r.run[b].nodes[i];
    assert p[e.index - 1] == p[..c.applied][e.index - 1] == c.log[..c.applied][e.index - 1];
  }

  lemma ConfirmedCanGo(r: Record, p: Log, j: nat)
    requires Sound(r, p) && j < |r.ops| && IsConfirmed(r.ops[j])
    ensures CanGo(r, p, j) && r.ops[j].invoke <= r.ops[j].complete
  {
    if r.ops[j].kind.Write? {
      assert WriteRecorded(r, j);
      var x: nat, b: nat :| Tried(r, j, x) && Answered(r, x, b) && b <= r.ops[j].complete;
      TriedSubmits(r, j, x);
      AnsweredInWhole(r, p, x, b);
      assert Effect(r, p, j, x) && Goes(r, p, j, 2 * EntryOf(r, x).index);
    } else {
      assert ReadRecorded(r, j);
      assert Goes(r, p, j, 2 * r.run[r.calls[j].answered].nodes[r.calls[j].node].applied + 1);
    }
  }

  lemma InWholeIsApplied(r: Record, p: Log, n: nat) returns (b: nat, i: nat)
    requires Sound(r, p) && n < |p|
    ensures At(r.run, b, i) && p[n] in AppliedLog(r.run, b, i) && p[n] in r.run[b].nodes[i].log && p[n].index == n + 1
  {
    TracedIsRun(r.run, r.steps);
    b, i :| At(r.run, b, i) && p == AppliedLog(r.run, b, i);
    LogsWellFormed(r.run, b, i);
    assert p[n] == r.run[b].nodes[i].log[n];
  }

  lemma EffectOnce(r: Record, p: Log, j: nat, x: nat, k: nat, y: nat)
    requires Sound(r, p) && Effect(r, p, j, x) && Effect(r, p, k, y)
    ensures EntryOf(r, x).index == EntryOf(r, y).index ==> x == y && j == k
    ensures j == k ==> x == y
  {
    var e, f := EntryOf(r, x), EntryOf(r, y);
    TriedSubmits(r, j, x);
    TriedSubmits(r, k, y);
    if e.index == f.index {
      if x <= y { SubmitsOnce(r.run, r.steps, x, y, e, f); } else { SubmitsOnce(r.run, r.steps, y, x, f, e); }
    }
    if j == k {
      var b, i := InWholeIsApplied(r, p, e.index - 1);
      var b', i' := InWholeIsApplied(r, p, f.index - 1);
    }
  }

  lemma CommandHasOwner(r: Record, p: Log, n: nat) returns (j: nat, x: nat)
    requires Sound(r, p) && n < |p| && p[n].command != NOOP_COMMAND
    ensures Effect(r, p, j, x) && EntryOf(r, x) == p[n] && p[n].index == n + 1
  {
    var b, i := InWholeIsApplied(r, p, n);
    assert InLog(r.run[b], i, p[n]);
    x := OriginOf(r.run, r.steps, b, p[n]);
    j :| Tried(r, j, x);
  }

  lemma PlacesCover(r: Record, p: Log, at: Places)
    requires Sound(r, p) && (forall j: nat :: j in at <==> j < |r.ops| && CanGo(r, p, j))
    requires forall j <- at :: Goes(r, p, j, at[j])
    ensures LogCovered(p, r.ops, at)
  {
    hide Sound, CanGo, Goes;
    forall j, k | j in at && k in at && at[j] == at[k] && at[j] % 2 == 0 ensures j == k {
      PlacedApart(r, p, at[j], j, k);
    }
    forall i | 0 <= i < |p| && p[i].command != NOOP_COMMAND ensures Taken(at, 2 * (i + 1)) {
      var j := PlaceOfCommand(r, p, at, i + 1);
    }
  }

  lemma PlacedApart(r: Record, p: Log, place: nat, j: nat, k: nat)
    requires Sound(r, p) && Goes(r, p, j, place) && Goes(r, p, k, place) && place % 2 == 0
    ensures j == k
  {
    assert r.ops[j].kind.Write? && r.ops[k].kind.Write?;
    var x: nat :| Effect(r, p, j, x) && place == 2 * EntryOf(r, x).index;
    var y: nat :| Effect(r, p, k, y) && place == 2 * EntryOf(r, y).index;
    EffectOnce(r, p, j, x, k, y);
  }

  lemma PlaceOfCommand(r: Record, p: Log, at: Places, n: nat) returns (j: nat)
    requires Sound(r, p) && (forall j: nat :: j in at <==> j < |r.ops| && CanGo(r, p, j))
    requires forall j <- at :: Goes(r, p, j, at[j])
    requires 1 <= n <= |p| && p[n - 1].command != NOOP_COMMAND
    ensures j in at && at[j] == 2 * n
  {
    var x: nat;
    j, x := CommandHasOwner(r, p, n - 1);
    TriedSubmits(r, j, x);
    assert Goes(r, p, j, 2 * n);
    assert CanGo(r, p, j);
    var y: nat :| Effect(r, p, j, y) && at[j] == 2 * EntryOf(r, y).index;
    EffectOnce(r, p, j, x, j, y);
  }

  // ----- real time -----

  /** When a confirmed operation ended some node had applied as much as its place says. */
  lemma EndedApplied(r: Record, p: Log, j: nat, place: nat) returns (b: nat, i: nat)
    requires Sound(r, p) && Goes(r, p, j, place) && IsConfirmed(r.ops[j])
    ensures b <= r.ops[j].complete && At(r.run, b, i) && place / 2 <= r.run[b].nodes[i].applied
  {
    if r.ops[j].kind.Write? {
      var x: nat :| Effect(r, p, j, x) && place == 2 * EntryOf(r, x).index;
      assert WriteRecorded(r, j);
      var y: nat, b': nat :| Tried(r, j, y) && Answered(r, y, b') && b' <= r.ops[j].complete;
      AnsweredInWhole(r, p, y, b');
      EffectOnce(r, p, j, x, j, y);
      b, i := b', r.steps[y].node;
    } else {
      assert ReadRecorded(r, j);
      b, i := r.calls[j].answered, r.calls[j].node;
    }
  }

  /** What begins later is placed no earlier. */
  lemma LaterGoesAfter(r: Record, p: Log, b: nat, i: nat, k: nat, place: nat)
    requires Sound(r, p) && At(r.run, b, i) && Goes(r, p, k, place) && b < r.ops[k].invoke
    ensures place >= 2 * r.run[b].nodes[i].applied + 1
  {
    if r.ops[k].kind.Write? {
      var x: nat :| Effect(r, p, k, x) && place == 2 * EntryOf(r, x).index;
      TriedSubmits(r, k, x);
      LaterWriteGoesAfter(r, p, b, i, k, x);
    } else {
      assert ReadRecorded(r, k);
      var call := r.calls[k];
      ReadsSeeWhatAnyApplied(r.run, r.steps, call.begun, call.confirmed, call.node, call.voters, call.answered, b, i);
    }
    hide Recorded, AppliedOnce, Whole, ReadConfirmed, OnlyOwnBeyond;
  }

  lemma LaterWriteGoesAfter(r: Record, p: Log, b: nat, i: nat, k: nat, x: nat)
    requires Sound(r, p) && At(r.run, b, i) && Effect(r, p, k, x) && b <= x
    ensures EntryOf(r, x).index > r.run[b].nodes[i].applied
  {
    var c, e := r.run[b].nodes[i], EntryOf(r, x);
    AppliedIsPrefix(r, p, b, i);
    TriedSubmits(r, k, x);
    hide Sound, KvStore.Replay;
    if e.index <= c.applied { assert c.log[e.index - 1] == c.log[..c.applied][e.index - 1] == e; }
    assert Traced(r.run, r.steps);
    NotBeforeSubmission(r.run, r.steps, x, e, b, i);
  }

  lemma PlacesRealTime(r: Record, p: Log, at: Places)
    requires Sound(r, p) && forall j <- at :: j < |r.ops| && Goes(r, p, j, at[j])
    ensures RealTimePlaced(r.ops, at)
  {
    forall j <- at | IsConfirmed(r.ops[j]) ensures r.ops[j].invoke <= r.ops[j].complete { ConfirmedCanGo(r, p, j); }
    forall j, k | j in at && k in at && IsConfirmed(r.ops[j]) && r.ops[j].complete < r.ops[k].invoke
      ensures at[j] <= at[k]
    {
      var b, i := EndedApplied(r, p, j, at[j]);
      LaterGoesAfter(r, p, b, i, k, at[k]);
    }
  }

  // ----- the theorem -----

  /** Every client history of a run is linearizable. */
  lemma ClientsSeeOneStore(r: Record)
    requires Recorded(r) && AppliedOnce(r)
    ensures StoreLinearizable(r.ops)
  {
    TracedIsRun(r.run, r.steps);
    var p := LongestBefore(r.run, |r.run|);
    forall b: nat, i: nat ensures Covers(r.run, p, b, i) { }
    var at := PlaceFirst(r, p, |r.ops|);
    forall j <- at ensures WritePlaced(p, r.ops[j], at[j]) || ReadPlaced(p, r.ops[j], at[j]) {
      if r.ops[j].kind.Write? { WriteIsPlaced(r, p, j, at[j]); } else { ReadIsPlaced(r, p, j, at[j]); }
    }
    forall j: nat | j < |r.ops| && IsConfirmed(r.ops[j]) ensures j in at { ConfirmedCanGo(r, p, j); }
    PlacesCover(r, p, at);
    PlacesRealTime(r, p, at);
    PlacedIsLinearizable(p, r.ops, at);
  }

  // ----- for the code as written -----

  ghost predicate FullStepTaken(run: seq<Full>, steps: seq<Step>, x: nat) {
    x < |steps| && x + 1 < |run| ==>
      CanTake(run[x], steps[x]) && Guarded(ALL, run[x], steps[x]) && run[x + 1] == Take(AsWritten, run[x], steps[x])
  }

  /** A run of the code within the three guards of Disks. */
  ghost predicate FullTraced(run: seq<Full>, steps: seq<Step>) {
    && |run| == |steps| + 1
    && FullInit(run[0])
    && forall x: nat {:trigger FullStepTaken(run, steps, x)} :: FullStepTaken(run, steps, x)
  }

  lemma FullTracedIsRun(run: seq<Full>, steps: seq<Step>)
    requires FullTraced(run, steps)
    ensures SourceRun(run)
  {
    forall k: nat ensures FullAt(AsWritten, ALL, run, k) {
      if 0 < k < |run| { assert FullStepTaken(run, steps, k - 1); }
    }
  }

  lemma GuardedStepAgrees(h: Hist, r: Full, step: Step)
    requires StateOk(h, r.state) && DisksOk(r) && CanTake(r, step) && Guarded(ALL, r, step)
    ensures Enabled(r.state, step) && Take(AsWritten, r, step).state == Perform(LastNewEntry, r.state, step)
  {
    TakeIsPerformIff(AsWritten, r, step);
    hide StateOk, Take, Perform, DisksOk;
    CarefulStepAgrees(h, r.state, step);
  }

  lemma FullTracedIsTraced(run: seq<Full>, steps: seq<Step>)
    requires FullTraced(run, steps)
    ensures Traced(States(run), steps)
  {
    FullTracedIsRun(run, steps);
    forall x: nat ensures StepTaken(States(run), steps, x) {
      if x < |steps| {
        assert FullStepTaken(run, steps, x);
        RunDisksOk(AsWritten, ALL, run, x);
        var h := HistoryAt(run, x);
        GuardedStepAgrees(h, run[x], steps[x]);
      }
    }
  }

  /** Every client history of a guarded run of the code is linearizable. */
  lemma ClientsSeeOneStoreAsWritten(run: seq<Full>, r: Record)
    requires FullTraced(run, r.steps) && r.run == States(run) && Accounted(r) && AppliedOnce(r)
    ensures StoreLinearizable(r.ops)
  {
    FullTracedIsTraced(run, r.steps);
    ClientsSeeOneStore(r);
  }
}
