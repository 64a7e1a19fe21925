/** The entry point of the checker: a recorded history of many keys
    (chaos-test/src/checker.rs:62-118, chaos-test/src/history.rs:118-193). */
module HistoryChecker {
  import opened Types
  import opened Linearizability
  import opened Checker
  import opened Locality

  function OpsForKey(ops: seq<Operation>, key: string): seq<Operation> {
    if ops == [] then []
    else OpsForKey(ops[..|ops| - 1], key) + if ops[|ops| - 1].key == key then [ops[|ops| - 1]] else []
  }

  function SuccessfulOps(ops: seq<Operation>): seq<Operation> {
    if ops == [] then []
    else SuccessfulOps(ops[..|ops| - 1]) + if IsConfirmed(ops[|ops| - 1]) then [ops[|ops| - 1]] else []
  }

  function IndeterminateWrites(ops: seq<Operation>): seq<Operation> {
    if ops == [] then []
    else IndeterminateWrites(ops[..|ops| - 1]) + if IsIndeterminate(ops[|ops| - 1]) then [ops[|ops| - 1]] else []
  }

  // ----- where the filtered operations stand in the history -----

  function PositionsOf(ops: seq<Operation>, key: string, confirmed: bool): (r: seq<nat>)
    ensures InRange(ops, r)
  {
    if ops == [] then []
    else
      var n := |ops| - 1;
      PositionsOf(ops[..n], key, confirmed) +
      if ops[n].key == key && (if confirmed then IsConfirmed(ops[n]) else IsIndeterminate(ops[n])) then [n] else []
  }

  function Pick(ops: seq<Operation>, positions: seq<nat>): seq<Operation>
    requires InRange(ops, positions)
  {
    seq(|positions|, i requires 0 <= i < |positions| => ops[positions[i]])
  }

  lemma PickSnoc(ops: seq<Operation>, p: seq<nat>, k: nat)
    requires ops != [] && InRange(ops[..|ops| - 1], p) && k < |ops|
    ensures InRange(ops, p + [k]) && Pick(ops, p + [k]) == Pick(ops[..|ops| - 1], p) + [ops[k]]
    ensures InRange(ops, p) && Pick(ops, p) == Pick(ops[..|ops| - 1], p)
  {
  }

  lemma SnocFilters(ops: seq<Operation>, op: Operation)
    ensures SuccessfulOps(ops + [op]) == SuccessfulOps(ops) + if IsConfirmed(op) then [op] else []
    ensures IndeterminateWrites(ops + [op]) == IndeterminateWrites(ops) + if IsIndeterminate(op) then [op] else []
  {
    assert (ops + [op])[..|ops|] == ops;
  }

  lemma {:induction false} FiltersPick(ops: seq<Operation>, key: string)
    ensures SuccessfulOps(OpsForKey(ops, key)) == Pick(ops, PositionsOf(ops, key, true))
    ensures IndeterminateWrites(OpsForKey(ops, key)) == Pick(ops, PositionsOf(ops, key, false))
    decreases |ops|
  {
    if ops != [] {
      var n := |ops| - 1;
      FiltersPick(ops[..n], key);
      PickSnoc(ops, PositionsOf(ops[..n], key, true), n);
      PickSnoc(ops, PositionsOf(ops[..n], key, false), n);
      SnocFilters(OpsForKey(ops[..n], key), ops[n]);
      assert OpsForKey(ops[..n], key) + [] == OpsForKey(ops[..n], key);
    }
  }

  predicate Wanted(op: Operation, key: string, confirmed: bool) {
    op.key == key && (if confirmed then IsConfirmed(op) else IsIndeterminate(op))
  }

  /** The positions are exactly those of the wanted operations, each once. */
  lemma {:induction false} PositionsExact(ops: seq<Operation>, key: string, confirmed: bool)
    ensures forall k: nat :: k in PositionsOf(ops, key, confirmed) <==> k < |ops| && Wanted(ops[k], key, confirmed)
    ensures NoRepeats(PositionsOf(ops, key, confirmed))
    decreases |ops|
  {
    if ops != [] {
      var n := |ops| - 1;
      var before := PositionsOf(ops[..n], key, confirmed);
      PositionsExact(ops[..n], key, confirmed);
      assert forall a | 0 <= a < |before| :: before[a] in before;
      assert forall k: nat :: k in before + [n] <==> k in before || k == n;
      assert before + [] == before;
    }
  }

  // ----- a linearization of the picked operations is one of the originals -----

  ghost predicate Views(all: seq<Operation>, positions: seq<nat>, sub: seq<Operation>) {
    && InRange(all, positions) && NoRepeats(positions) && |sub| == |positions|
    && forall i | 0 <= i < |sub| :: sub[i] == all[positions[i]]
  }

  function Through(positions: seq<nat>, order: seq<nat>): (r: seq<nat>)
    requires forall a | 0 <= a < |order| :: order[a] < |positions|
    ensures |r| == |order| && forall a | 0 <= a < |order| :: r[a] == positions[order[a]]
  {
    seq(|order|, a requires 0 <= a < |order| => positions[order[a]])
  }

  ghost function Image(positions: seq<nat>, s: set<nat>): set<nat> { set i | i in s && i < |positions| :: positions[i] }

  lemma {:induction false} LegalThrough(all: seq<Operation>, positions: seq<nat>, sub: seq<Operation>,
                                        order: seq<nat>, reg: Register)
    requires Views(all, positions, sub) && InRange(sub, order)
    ensures Legal(sub, order, reg) <==> Legal(all, Through(positions, order), reg)
    decreases |order|
  {
    if order != [] {
      Shift(order);
      assert Through(positions, order)[1..] == Through(positions, order[1..]);
      LegalThrough(all, positions, sub, order[1..], TryApply(sub[order[0]], reg).1);
    }
  }

  lemma ThroughRepeats(positions: seq<nat>, order: seq<nat>)
    requires NoRepeats(positions) && forall a | 0 <= a < |order| :: order[a] < |positions|
    ensures NoRepeats(order) <==> NoRepeats(Through(positions, order))
  {
  }

  ghost predicate Within(order: seq<nat>, c: set<nat>, o: set<nat>) { forall k <- order :: k in c || k in o }

  ghost predicate Covers(order: seq<nat>, c: set<nat>) { forall k <- c :: k in order }

  lemma ThroughWithin(positions: seq<nat>, c: set<nat>, o: set<nat>, order: seq<nat>)
    requires NoRepeats(positions) && forall a | 0 <= a < |order| :: order[a] < |positions|
    requires forall i | i in c || i in o :: i < |positions|
    ensures Within(order, c, o) <==> Within(Through(positions, order), Image(positions, c), Image(positions, o))
  {
    var t := Through(positions, order);
    ThroughMembers(positions, c, order);
    ThroughMembers(positions, o, order);
    if Within(t, Image(positions, c), Image(positions, o)) {
      forall a | 0 <= a < |order| ensures order[a] in c || order[a] in o { assert t[a] in t; }
    }
    if Within(order, c, o) {
      forall a | 0 <= a < |order| ensures t[a] in Image(positions, c) || t[a] in Image(positions, o) {
        assert order[a] in order;
      }
    }
  }

  lemma ThroughCovers(positions: seq<nat>, c: set<nat>, order: seq<nat>)
    requires NoRepeats(positions) && forall a | 0 <= a < |order| :: order[a] < |positions|
    requires forall i <- c :: i < |positions|
    ensures Covers(order, c) <==> Covers(Through(positions, order), Image(positions, c))
  {
    var t := Through(positions, order);
    if Covers(t, Image(positions, c)) {
      forall k <- c ensures k in order { CoveredBack(positions, c, order, k); }
    }
    if Covers(order, c) {
      forall x <- Image(positions, c) ensures x in t {
        var k :| k in c && k < |positions| && positions[k] == x;
        var a :| 0 <= a < |order| && order[a] == k;
        assert t[a] == x;
      }
    }
  }

  lemma ThroughRealTime(all: seq<Operation>, positions: seq<nat>, sub: seq<Operation>, c: set<nat>, order: seq<nat>)
    requires Views(all, positions, sub) && InRange(sub, order) && forall i <- c :: i < |sub|
    ensures RealTime(sub, c, order) <==> RealTime(all, Image(positions, c), Through(positions, order))
  {
    ThroughMembers(positions, c, order);
    var t := Through(positions, order);
    if RealTime(all, Image(positions, c), t) {
      forall a, b | 0 <= a <= b < |order| && order[b] in c ensures sub[order[a]].invoke <= sub[order[b]].complete {
        assert all[t[a]].invoke <= all[t[b]].complete;
      }
    }
    if RealTime(sub, c, order) {
      forall a, b | 0 <= a <= b < |t| && t[b] in Image(positions, c) ensures all[t[a]].invoke <= all[t[b]].complete {
        assert sub[order[a]].invoke <= sub[order[b]].complete;
      }
    }
  }

  lemma ThroughIff(all: seq<Operation>, positions: seq<nat>, sub: seq<Operation>, c: set<nat>, o: set<nat>,
                   order: seq<nat>)
    requires Views(all, positions, sub) && InRange(sub, order)
    requires forall i | i in c || i in o :: i < |sub|
    ensures Linearization(sub, c, o, order) <==>
            Linearization(all, Image(positions, c), Image(positions, o), Through(positions, order))
  {
    LegalThrough(all, positions, sub, order, None);
    ThroughRepeats(positions, order);
    ThroughWithin(positions, c, o, order);
    ThroughCovers(positions, c, order);
    ThroughRealTime(all, positions, sub, c, order);
    var t := Through(positions, order);
    assert Linearization(sub, c, o, order) <==>
           NoRepeats(order) && Within(order, c, o) && Covers(order, c) && RealTime(sub, c, order)
           && Legal(sub, order, None);
  }

  lemma CoveredBack(positions: seq<nat>, c: set<nat>, order: seq<nat>, k: nat)
    requires NoRepeats(positions) && k in c && k < |positions|
    requires forall a | 0 <= a < |order| :: order[a] < |positions|
    requires forall x <- Image(positions, c) :: x in Through(positions, order)
    ensures k in order
  {
    assert positions[k] in Image(positions, c);
    var a :| 0 <= a < |order| && Through(positions, order)[a] == positions[k];
    assert order[a] == k;
  }

  /** A position is seen through the view exactly when its name is. */
  lemma ThroughMembers(positions: seq<nat>, s: set<nat>, order: seq<nat>)
    requires NoRepeats(positions) && forall a | 0 <= a < |order| :: order[a] < |positions|
    requires forall i <- s :: i < |positions|
    ensures forall a | 0 <= a < |order| :: order[a] in s <==> Through(positions, order)[a] in Image(positions, s)
  {
    forall a | 0 <= a < |order| && positions[order[a]] in Image(positions, s) ensures order[a] in s {
      var i :| i in s && i < |positions| && positions[i] == positions[order[a]];
      assert i == order[a];
    }
  }

  /** An order of originals that stays within the view is one seen through it. */
  lemma {:induction false} Back(positions: seq<nat>, order: seq<nat>) returns (r: seq<nat>)
    requires forall k <- order :: k in positions
    ensures (forall a | 0 <= a < |r| :: r[a] < |positions|) && Through(positions, r) == order
    decreases |order|
  {
    if order == [] {
      r := [];
    } else {
      assert order[0] in order;
      var i :| 0 <= i < |positions| && positions[i] == order[0];
      assert forall k <- order[1..] :: k in order;
      var rest := Back(positions, order[1..]);
      r := [i] + rest;
      assert Through(positions, r) == [order[0]] + Through(positions, rest);
    }
  }

  lemma ViewDecides(all: seq<Operation>, positions: seq<nat>, sub: seq<Operation>, c: set<nat>, o: set<nat>)
    requires Views(all, positions, sub) && forall i | i in c || i in o :: i < |sub|
    ensures Linearizable(sub, c, o) <==> Linearizable(all, Image(positions, c), Image(positions, o))
  {
    if Linearizable(sub, c, o) {
      var order :| Linearization(sub, c, o, order);
      LegalInRange(sub, order, None);
      ThroughIff(all, positions, sub, c, o, order);
      assert Linearization(all, Image(positions, c), Image(positions, o), Through(positions, order));
    }
    if Linearizable(all, Image(positions, c), Image(positions, o)) {
      var order :| Linearization(all, Image(positions, c), Image(positions, o), order);
      forall k <- order ensures k in positions {
        assert k in Image(positions, c) || k in Image(positions, o);
      }
      var back := Back(positions, order);
      ThroughIff(all, positions, sub, c, o, back);
      assert Linearization(sub, c, o, back);
    }
  }

  // ----- one key of a history -----

  lemma KeyView(ops: seq<Operation>, key: string) returns (positions: seq<nat>)
    ensures var confirmed, open := SuccessfulOps(OpsForKey(ops, key)), IndeterminateWrites(OpsForKey(ops, key));
            && Views(Settled(ops), positions, Combined(confirmed, open))
            && Image(positions, Positions(0, |confirmed|)) == OnKey(Settled(ops), ConfirmedAt(ops), key)
            && Image(positions, Positions(|confirmed|, |confirmed| + |open|)) == OnKey(Settled(ops), OpenAt(ops), key)
  {
    FiltersPick(ops, key);
    PositionsExact(ops, key, true);
    PositionsExact(ops, key, false);
    var p, q := PositionsOf(ops, key, true), PositionsOf(ops, key, false);
    positions := p + q;
    JoinedPositions(p, q);
    hide PositionsOf, OpsForKey, SuccessfulOps, IndeterminateWrites;
    assert forall a | 0 <= a < |p| :: p[a] in p;
    assert forall b | 0 <= b < |q| :: q[b] in q;
    assert NoRepeats(positions);
  }

  lemma JoinedPositions(p: seq<nat>, q: seq<nat>)
    ensures Image(p + q, Positions(0, |p|)) == Elements(p)
    ensures Image(p + q, Positions(|p|, |p| + |q|)) == Elements(q)
  {
    forall k <- p ensures k in Image(p + q, Positions(0, |p|)) {
      var i :| 0 <= i < |p| && p[i] == k;
      assert (p + q)[i] == k && i in Positions(0, |p|);
    }
    forall k <- q ensures k in Image(p + q, Positions(|p|, |p| + |q|)) {
      var i :| 0 <= i < |q| && q[i] == k;
      assert (p + q)[|p| + i] == k && |p| + i in Positions(|p|, |p| + |q|);
    }
  }

  /** Checking the filtered operations of a key is checking that key's part of the history. */
  lemma KeyCheckDecides(ops: seq<Operation>, key: string)
    ensures KeyLinearizable(SuccessfulOps(OpsForKey(ops, key)), IndeterminateWrites(OpsForKey(ops, key))) <==>
            Linearizable(Settled(ops), OnKey(Settled(ops), ConfirmedAt(ops), key),
                         OnKey(Settled(ops), OpenAt(ops), key))
  {
    var confirmed, open := SuccessfulOps(OpsForKey(ops, key)), IndeterminateWrites(OpsForKey(ops, key));
    var positions := KeyView(ops, key);
    ViewDecides(Settled(ops), positions, Combined(confirmed, open),
                Positions(0, |confirmed|), Positions(|confirmed|, |confirmed| + |open|));
  }

  // ----- the recorded history -----

  class History {
    var ops: seq<Operation>

    constructor ()
      ensures ops == []
    {
      ops := [];
    }

    method Add(op: Operation)
      modifies this
      ensures ops == old(ops) + [op]
    {
      ops := ops + [op];
    }

    function UniqueKeys(): set<string>
      reads this
    {
      KeysOf(ops)
    }
  }

  ghost predicate KeyOk(ops: seq<Operation>, key: string) {
    Linearizable(Settled(ops), OnKey(Settled(ops), ConfirmedAt(ops), key), OnKey(Settled(ops), OpenAt(ops), key))
  }

  lemma NothingIsLinearizable()
    ensures KeyLinearizable([], [])
  {
    EmptyIsWitness();
  }

  /** The ids of one witness of a key's part. */
  ghost predicate KeyWitness(ops: seq<Operation>, key: string, ids: seq<nat>) {
    WitnessIds(SuccessfulOps(OpsForKey(ops, key)), IndeterminateWrites(OpsForKey(ops, key)), ids)
  }

  /** A list of ids that is one key's witness after another's. */
  ghost predicate Concatenates(ops: seq<Operation>, order: seq<string>, ids: seq<nat>)
    decreases |order|, 1
  {
    if order == [] then ids == [] else exists before, last :: EndsWith(ops, order, before, last, ids)
  }

  ghost predicate EndsWith(ops: seq<Operation>, order: seq<string>, before: seq<nat>, last: seq<nat>, ids: seq<nat>)
    requires order != []
    decreases |order|, 0
  {
    var n := |order| - 1;
    ids == before + last && KeyWitness(ops, order[n], last) && Concatenates(ops, order[..n], before)
  }

  ghost predicate EachOnce(order: seq<string>, keys: set<string>) {
    (forall k :: k in order <==> k in keys) && forall a, b | 0 <= a < b < |order| :: order[a] != order[b]
  }

  /** A list of ids for a whole history: the witnesses of its keys, each key once. */
  ghost predicate WitnessOfEach(ops: seq<Operation>, keys: set<string>, ids: seq<nat>) {
    exists order :: EachOnce(order, keys) && Concatenates(ops, order, ids)
  }

  lemma NoKeys(ops: seq<Operation>)
    ensures WitnessOfEach(ops, {}, [])
  {
    assert EachOnce([], {}) && Concatenates(ops, [], []);
  }

  lemma OneMoreKey(ops: seq<Operation>, keys: set<string>, key: string, before: seq<nat>, last: seq<nat>)
    requires key !in keys && WitnessOfEach(ops, keys, before) && KeyWitness(ops, key, last)
    ensures WitnessOfEach(ops, keys + {key}, before + last)
  {
    hide KeyWitness;
    var order :| EachOnce(order, keys) && Concatenates(ops, order, before);
    var longer := order + [key];
    assert longer[..|order|] == order;
    assert EndsWith(ops, longer, before, last, before + last);
    EachOnceMore(order, keys, key);
  }

  lemma EachOnceMore(order: seq<string>, keys: set<string>, key: string)
    requires EachOnce(order, keys) && key !in keys
    ensures EachOnce(order + [key], keys + {key})
  {
  }

  method CheckKey(ops: seq<Operation>, key: string) returns (ok: bool, ids: seq<nat>)
    ensures ok <==> KeyOk(ops, key)
    ensures ok ==> KeyWitness(ops, key, ids)
  {
    var keyOps := SuccessfulOps(OpsForKey(ops, key));
    var indeterminate := IndeterminateWrites(OpsForKey(ops, key));
    KeyCheckDecides(ops, key);
    NothingIsLinearizable();
    EmptyIsWitness();
    hide KeyLinearizable, Linearizable, WitnessIds, OnKey, SuccessfulOps, IndeterminateWrites, OpsForKey;
    if keyOps == [] && indeterminate == [] {
      return true, [];
    }
    var one := CheckSingleKey(keyOps, indeterminate);
    return one.isLinearizable, if one.isLinearizable then one.linearization.value else [];
  }

  /** The check of a whole history: yes exactly when all its operations together, confirmed ones and
      some of the indeterminate writes, can be ordered as a linearization. */
  method Check(history: History) returns (r: CheckResult)
    ensures r.isLinearizable <==> StoreLinearizable(history.ops)
    ensures r.isLinearizable <==> r.linearization.Some?
    ensures r.isLinearizable ==> WitnessOfEach(history.ops, KeysOf(history.ops), r.linearization.value)
  {
    var keys := history.UniqueKeys();
    var all: seq<nat> := [];
    LinearizableIffEachKey(history.ops);
    NoKeys(history.ops);
    hide WitnessOfEach, KeyWitness;
    ghost var done: set<string> := {};
    while keys != {}
      invariant done + keys == KeysOf(history.ops)
      invariant done !! keys && WitnessOfEach(history.ops, done, all)
      invariant forall key <- done :: KeyOk(history.ops, key)
      decreases keys
    {
      var key :| key in keys;
      var ok, ids := CheckKey(history.ops, key);
      if !ok {
        return CheckResult(false, None);
      }
      OneMoreKey(history.ops, done, key, all, ids);
      all := all + ids;
      keys := keys - {key};
      done := done + {key};
    }
    assert done == KeysOf(history.ops);
    return CheckResult(true, Some(all));
  }
}
