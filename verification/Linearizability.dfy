/** What it means for a recorded history of register operations to be linearizable
    (chaos-test/src/history.rs, chaos-test/src/checker.rs). Operations are named by their position
    in a sequence; a confirmed operation must take effect within its interval, an indeterminate
    write may take effect at any time after its invocation, or never. */
module Linearizability {
  import opened Types

  datatype Kind = Read | Write(value: string)

  datatype Result = ReadOk(value: Option<string>) | WriteOk | Error

  datatype Operation = Operation(id: nat, client: nat, key: string, kind: Kind,
                                 invoke: nat, complete: nat, result: Result)

  type Register = Option<string>

  /** One operation on a register: whether it can happen there, and the register after it. */
  function TryApply(op: Operation, reg: Register): (bool, Register) {
    match (op.kind, op.result)
    case (Write(v), WriteOk) => (true, Some(v))
    case (Read, ReadOk(v)) => (reg == v, reg)
    case _ => (false, reg)
  }

  ghost predicate Legal(ops: seq<Operation>, order: seq<nat>, reg: Register) {
    order == [] ||
    (&& order[0] < |ops|
     && TryApply(ops[order[0]], reg).0
     && Legal(ops, order[1..], TryApply(ops[order[0]], reg).1))
  }

  /** If one operation ends before another begins, it comes first; the case of an operation with
      itself says that its interval is not empty. Only confirmed operations end. */
  ghost predicate RealTime(ops: seq<Operation>, confirmed: set<nat>, order: seq<nat>) {
    forall a, b | 0 <= a <= b < |order| && order[a] < |ops| && order[b] < |ops| && order[b] in confirmed ::
      ops[order[a]].invoke <= ops[order[b]].complete
  }

  predicate NoRepeats(order: seq<nat>) { forall a, b | 0 <= a < b < |order| :: order[a] != order[b] }

  /** A witness: every confirmed operation once, some of the optional ones at most once, in an order
      that respects real time and that a single register could have gone through. */
  ghost predicate Linearization(ops: seq<Operation>, confirmed: set<nat>, optional: set<nat>, order: seq<nat>) {
    && NoRepeats(order)
    && (forall k <- order :: k in confirmed || k in optional)
    && (forall k <- confirmed :: k in order)
    && RealTime(ops, confirmed, order)
    && Legal(ops, order, None)
  }

  ghost predicate Linearizable(ops: seq<Operation>, confirmed: set<nat>, optional: set<nat>) {
    exists order :: Linearization(ops, confirmed, optional, order)
  }

  predicate InRange(ops: seq<Operation>, order: seq<nat>) { forall a | 0 <= a < |order| :: order[a] < |ops| }

  // ----- linearization points -----

  /** Whether an operation can take effect at a time; one that never ended can do so at any time after
      its invocation. */
  predicate CouldLinearizeAt(op: Operation, ends: bool, time: nat) {
    op.invoke <= time && (ends ==> time <= op.complete)
  }

  /** One point in time for each operation of an order, none before its predecessor's. */
  ghost predicate PointsFor(ops: seq<Operation>, confirmed: set<nat>, order: seq<nat>, points: seq<nat>)
    requires InRange(ops, order)
  {
    && |points| == |order|
    && (forall k | 0 <= k < |order| :: CouldLinearizeAt(ops[order[k]], order[k] in confirmed, points[k]))
    && forall j, k | 0 <= j <= k < |points| :: points[j] <= points[k]
  }

  /** The latest invocation among the first operations of an order, up to position k. */
  function LatestInvoke(ops: seq<Operation>, order: seq<nat>, k: nat): (m: nat)
    requires InRange(ops, order) && k < |order|
    ensures exists a :: 0 <= a <= k && m == ops[order[a]].invoke
    ensures forall a | 0 <= a <= k :: ops[order[a]].invoke <= m
  {
    if k == 0 then ops[order[0]].invoke else Max(LatestInvoke(ops, order, k - 1), ops[order[k]].invoke)
  }

  lemma {:induction false} LatestInvokeRises(ops: seq<Operation>, order: seq<nat>, j: nat, k: nat)
    requires InRange(ops, order) && j <= k < |order|
    ensures LatestInvoke(ops, order, j) <= LatestInvoke(ops, order, k)
    decreases k
  {
    if j < k { LatestInvokeRises(ops, order, j, k - 1); }
  }

  /** An order respects real time exactly when its operations can take effect one after another, each at
      a point within its interval. */
  lemma RealTimeIffPoints(ops: seq<Operation>, confirmed: set<nat>, order: seq<nat>)
    requires InRange(ops, order)
    ensures RealTime(ops, confirmed, order) <==> exists points :: PointsFor(ops, confirmed, order, points)
  {
    if RealTime(ops, confirmed, order) {
      var points := seq(|order|, k requires 0 <= k < |order| => LatestInvoke(ops, order, k));
      forall k | 0 <= k < |order| ensures CouldLinearizeAt(ops[order[k]], order[k] in confirmed, points[k]) {
        var a :| 0 <= a <= k && points[k] == ops[order[a]].invoke;
      }
      forall j, k | 0 <= j <= k < |points| ensures points[j] <= points[k] { LatestInvokeRises(ops, order, j, k); }
      assert PointsFor(ops, confirmed, order, points);
    }
    if points :| PointsFor(ops, confirmed, order, points) {
      forall a, b | 0 <= a <= b < |order|
                    && order[b] in confirmed ensures ops[order[a]].invoke <= ops[order[b]].complete {
        assert CouldLinearizeAt(ops[order[a]], order[a] in confirmed, points[a]);
        assert CouldLinearizeAt(ops[order[b]], order[b] in confirmed, points[b]);
      }
    }
  }

  // ----- the same conditions read from the front -----

  ghost predicate Arranges(order: seq<nat>, required: set<nat>, optional: set<nat>) {
    if order == [] then required == {}
    else
      && (order[0] in required || order[0] in optional)
      && Arranges(order[1..], required - {order[0]}, optional - {order[0]})
  }

  /** Each operation with a deadline ends no earlier than everything before it, and itself, began. */
  ghost predicate Timed(ops: seq<Operation>, bound: set<nat>, order: seq<nat>, frontier: nat) {
    order == [] ||
    (&& order[0] < |ops|
     && (order[0] in bound ==> Max(frontier, ops[order[0]].invoke) <= ops[order[0]].complete)
     && Timed(ops, bound, order[1..], Max(frontier, ops[order[0]].invoke)))
  }

  lemma {:induction false} ArrangesIff(order: seq<nat>, required: set<nat>, optional: set<nat>)
    ensures Arranges(order, required, optional) <==>
            && NoRepeats(order)
            && (forall k <- order :: k in required || k in optional)
            && (forall k <- required :: k in order)
    decreases |order|
  {
    if order != [] {
      var k, rest := order[0], order[1..];
      ArrangesIff(rest, required - {k}, optional - {k});
      assert order == [k] + rest;
      assert forall x :: x in order <==> x == k || x in rest;
      if NoRepeats(order) {
        assert forall a | 0 <= a < |rest| :: rest[a] == order[a + 1];
        assert k !in rest;
        assert NoRepeats(rest);
      }
      if NoRepeats(rest) && k !in rest {
        forall a, b | 0 <= a < b < |order| ensures order[a] != order[b] {
          assert order[b] == rest[b - 1];
          if a > 0 { assert order[a] == rest[a - 1]; }
        }
      }
    }
  }

  ghost predicate NotBefore(ops: seq<Operation>, bound: set<nat>, order: seq<nat>, frontier: nat) {
    forall b | 0 <= b < |order| && order[b] < |ops| && order[b] in bound :: frontier <= ops[order[b]].complete
  }

  /** Where the rest of an order stands in the whole of it. */
  lemma Shift(order: seq<nat>)
    requires order != []
    ensures forall b | 0 <= b < |order[1..]| :: order[1..][b] == order[b + 1]
    ensures forall b | 0 < b < |order| :: order[b] == order[1..][b - 1]
  {
  }

  lemma RealTimeSnoc(ops: seq<Operation>, bound: set<nat>, order: seq<nat>)
    requires order != [] && InRange(ops, order)
    ensures RealTime(ops, bound, order) <==>
            RealTime(ops, bound, order[1..]) && NotBefore(ops, bound, order, ops[order[0]].invoke)
  {
    Shift(order);
    if RealTime(ops, bound, order[1..]) && NotBefore(ops, bound, order, ops[order[0]].invoke) {
      forall a, b | 0 <= a <= b < |order| && order[a] < |ops| && order[b] < |ops| && order[b] in bound
        ensures ops[order[a]].invoke <= ops[order[b]].complete
      {
        if a > 0 { assert order[a] == order[1..][a - 1] && order[b] == order[1..][b - 1]; }
      }
    }
    if RealTime(ops, bound, order) {
      forall a, b | 0 <= a <= b < |order[1..]| && order[1..][a] < |ops| && order[1..][b] < |ops|
                    && order[1..][b] in bound
        ensures ops[order[1..][a]].invoke <= ops[order[1..][b]].complete
      {
        assert order[1..][a] == order[a + 1] && order[1..][b] == order[b + 1];
      }
    }
  }

  lemma NotBeforeSnoc(ops: seq<Operation>, bound: set<nat>, order: seq<nat>, frontier: nat)
    requires order != [] && order[0] < |ops|
    ensures NotBefore(ops, bound, order, frontier) <==>
            (order[0] in bound ==> frontier <= ops[order[0]].complete) && NotBefore(ops, bound, order[1..], frontier)
  {
    Shift(order);
  }

  lemma {:induction false} TimedIff(ops: seq<Operation>, bound: set<nat>, order: seq<nat>, frontier: nat)
    requires InRange(ops, order)
    ensures Timed(ops, bound, order, frontier) <==> RealTime(ops, bound, order)
                                                    && NotBefore(ops, bound, order, frontier)
    decreases |order|
  {
    if order != [] {
      var i := ops[order[0]].invoke;
      TimedIff(ops, bound, order[1..], Max(frontier, i));
      RealTimeSnoc(ops, bound, order);
      NotBeforeSnoc(ops, bound, order, frontier);
      NotBeforeSnoc(ops, bound, order, i);
      assert NotBefore(ops, bound, order[1..], Max(frontier, i)) <==>
             NotBefore(ops, bound, order[1..], i) && NotBefore(ops, bound, order[1..], frontier);
    }
  }

  ghost predicate Fits(ops: seq<Operation>, bound: set<nat>, required: set<nat>, optional: set<nat>,
                       reg: Register, frontier: nat, order: seq<nat>) {
    Arranges(order, required, optional) && Timed(ops, bound, order, frontier) && Legal(ops, order, reg)
  }

  lemma {:induction false} LegalInRange(ops: seq<Operation>, order: seq<nat>, reg: Register)
    requires Legal(ops, order, reg)
    ensures InRange(ops, order)
    decreases |order|
  {
    if order != [] {
      LegalInRange(ops, order[1..], TryApply(ops[order[0]], reg).1);
      Shift(order);
    }
  }

  /** The two readings agree. */
  lemma LinearizationIffFits(ops: seq<Operation>, confirmed: set<nat>, optional: set<nat>, order: seq<nat>)
    ensures Linearization(ops, confirmed, optional, order)
       <==> Fits(ops, confirmed, confirmed, optional, None, 0, order)
  {
    ArrangesIff(order, confirmed, optional);
    if Legal(ops, order, None) {
      LegalInRange(ops, order, None);
      TimedIff(ops, confirmed, order, 0);
    }
  }

  // ----- deadlines for indeterminate writes -----

  /** The same history with other completion times for the optional operations only. */
  ghost predicate SameButDeadlines(ops: seq<Operation>, ops': seq<Operation>, optional: set<nat>) {
    && |ops'| == |ops|
    && forall k | 0 <= k < |ops| ::
         ops'[k] == ops[k] || (k in optional && ops'[k] == ops[k].(complete := ops'[k].complete))
  }

  lemma {:induction false} LegalIgnoresDeadlines(ops: seq<Operation>, ops': seq<Operation>, optional: set<nat>,
                                                 order: seq<nat>, reg: Register)
    requires SameButDeadlines(ops, ops', optional)
    ensures Legal(ops, order, reg) <==> Legal(ops', order, reg)
    decreases |order|
  {
    if order != [] && order[0] < |ops| {
      LegalIgnoresDeadlines(ops, ops', optional, order[1..], TryApply(ops[order[0]], reg).1);
    }
  }

  /** Whatever is still required ends no earlier than the frontier and the next operation's start. */
  lemma {:induction false} FrontierBelowRequired(ops: seq<Operation>, bound: set<nat>, required: set<nat>,
                                                 optional: set<nat>, frontier: nat, order: seq<nat>)
    requires Arranges(order, required, optional) && Timed(ops, bound, order, frontier) && required <= bound
    ensures forall r <- required :: r < |ops| && frontier <= ops[r].complete
    ensures order != [] ==> forall r <- required :: ops[order[0]].invoke <= ops[r].complete
    decreases |order|
  {
    if order != [] {
      var k := order[0];
      FrontierBelowRequired(ops, bound, required - {k}, optional - {k}, Max(frontier, ops[k].invoke), order[1..]);
      forall r <- required ensures r < |ops| && frontier <= ops[r].complete && ops[k].invoke <= ops[r].complete {
        if r != k { assert r in required - {k}; }
      }
    }
  }

  /** Ending every indeterminate write at the latest completion time of the history accepts the same
      histories as letting it take effect at any later time: an order with open ends, cut after its
      last confirmed operation, meets those deadlines whatever operations they are put on. */
  lemma {:induction false} CutMeetsDeadlines(ops: seq<Operation>, ops': seq<Operation>, confirmed: set<nat>,
                                             open: set<nat>,
                                             latest: nat, bound: set<nat>, required: set<nat>, optional: set<nat>,
                                             reg: Register, frontier: nat, order: seq<nat>) returns (cut: seq<nat>)
    requires SameButDeadlines(ops, ops', open) && confirmed !! open
    requires required <= confirmed && optional <= open
    requires forall k | k in confirmed && k < |ops| :: ops[k].complete <= latest
    requires forall k | k in open && k < |ops| :: ops'[k].complete == latest
    requires Fits(ops, confirmed, required, optional, reg, frontier, order)
    ensures Fits(ops', bound, required, optional, reg, frontier, cut)
    decreases |order|
  {
    if required == {} {
      cut := [];
    } else {
      var k, rest := order[0], order[1..];
      FrontierBelowRequired(ops, confirmed, required, optional, frontier, order);
      var r :| r in required;
      assert r in confirmed && ops[r].complete <= latest;
      var end := CutMeetsDeadlines(ops, ops', confirmed, open, latest, bound, required - {k}, optional - {k},
                                   TryApply(ops[k], reg).1, Max(frontier, ops[k].invoke), rest);
      cut := [k] + end;
      assert cut[1..] == end;
    }
  }

  /** Deadlines only make an order harder to accept. */
  lemma {:induction false} DeadlinesOnlyRestrict(ops: seq<Operation>, ops': seq<Operation>, confirmed: set<nat>,
                                                 open: set<nat>,
                                                 bound: set<nat>, order: seq<nat>, frontier: nat)
    requires SameButDeadlines(ops, ops', open) && confirmed !! open && confirmed <= bound
    requires Timed(ops', bound, order, frontier)
    ensures Timed(ops, confirmed, order, frontier)
    decreases |order|
  {
    if order != [] {
      DeadlinesOnlyRestrict(ops, ops', confirmed, open, bound, order[1..], Max(frontier, ops[order[0]].invoke));
    }
  }
}
