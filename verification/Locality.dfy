/** Checking a history key by key (chaos-test/src/checker.rs:71-118) decides linearizability of the
    whole history: per-key witnesses can be merged into one order of all operations. */
module Locality {
  import opened Types
  import opened Linearizability

  type Store = map<string, Register>

  function Reg(store: Store, key: string): Register { if key in store then store[key] else None }

  ghost predicate StoreLegal(ops: seq<Operation>, order: seq<nat>, store: Store) {
    order == [] ||
    (&& order[0] < |ops|
     && var op := ops[order[0]];
     && TryApply(op, Reg(store, op.key)).0
     && StoreLegal(ops, order[1..], store[op.key := TryApply(op, Reg(store, op.key)).1]))
  }

  predicate IsConfirmed(op: Operation) { op.result != Error }

  predicate IsIndeterminate(op: Operation) { op.kind.Write? && op.result == Error }

  /** The history with every indeterminate write as if acknowledged. */
  function Settled(ops: seq<Operation>): seq<Operation> {
    seq(|ops|, i requires 0 <= i < |ops| => if IsIndeterminate(ops[i]) then ops[i].(result := WriteOk) else ops[i])
  }

  function ConfirmedAt(ops: seq<Operation>): set<nat> { set i: nat | i < |ops| && IsConfirmed(ops[i]) }

  function OpenAt(ops: seq<Operation>): set<nat> { set i: nat | i < |ops| && IsIndeterminate(ops[i]) }

  /** One order of the operations on all keys: every confirmed one once, indeterminate writes at most
      once, respecting real time across keys, legal for a store of independent registers. */
  ghost predicate StoreLinearization(ops: seq<Operation>, order: seq<nat>) {
    && NoRepeats(order)
    && (forall k <- order :: k in ConfirmedAt(ops) || k in OpenAt(ops))
    && (forall k <- ConfirmedAt(ops) :: k in order)
    && RealTime(Settled(ops), ConfirmedAt(ops), order)
    && StoreLegal(Settled(ops), order, map[])
  }

  ghost predicate StoreLinearizable(ops: seq<Operation>) { exists order :: StoreLinearization(ops, order) }

  // ----- one key of an order -----

  function Project(ops: seq<Operation>, order: seq<nat>, key: string): seq<nat> {
    if order == [] then []
    else (if order[0] < |ops| && ops[order[0]].key == key then [order[0]] else []) + Project(ops, order[1..], key)
  }

  function OnKey(ops: seq<Operation>, s: set<nat>, key: string): set<nat> {
    set k | k in s && k < |ops| && ops[k].key == key
  }

  /** A store goes through an order exactly when each register goes through its part of it. */
  lemma {:induction false} StoreLegalIffEachKey(ops: seq<Operation>, order: seq<nat>, store: Store)
    requires InRange(ops, order)
    ensures StoreLegal(ops, order, store) <==> forall key :: Legal(ops, Project(ops, order, key), Reg(store, key))
    decreases |order|
  {
    if order != [] {
      Shift(order);
      var op := ops[order[0]];
      var reg := Reg(store, op.key);
      var after := store[op.key := TryApply(op, reg).1];
      StoreLegalIffEachKey(ops, order[1..], after);
      forall key ensures Project(ops, order, key) ==
                         if op.key == key then [order[0]] + Project(ops, order[1..], key)
                         else Project(ops, order[1..], key) {
      }
      assert Project(ops, order, op.key)[1..] == Project(ops, order[1..], op.key);
      if forall key :: Legal(ops, Project(ops, order, key), Reg(store, key)) {
        assert Legal(ops, Project(ops, order, op.key), reg);
        forall key ensures Legal(ops, Project(ops, order[1..], key), Reg(after, key)) {
          assert Legal(ops, Project(ops, order, key), Reg(store, key));
        }
      }
      if StoreLegal(ops, order, store) {
        forall key ensures Legal(ops, Project(ops, order, key), Reg(store, key)) {
          assert Legal(ops, Project(ops, order[1..], key), Reg(after, key));
        }
      }
    }
  }

  lemma {:induction false} ProjectArranges(ops: seq<Operation>, order: seq<nat>, required: set<nat>,
                                           optional: set<nat>, key: string)
    requires InRange(ops, order) && Arranges(order, required, optional)
    ensures Arranges(Project(ops, order, key), OnKey(ops, required, key), OnKey(ops, optional, key))
    decreases |order|
  {
    if order != [] {
      Shift(order);
      var k := order[0];
      ProjectArranges(ops, order[1..], required - {k}, optional - {k}, key);
      KeyWithout(ops, required, k, key);
      KeyWithout(ops, optional, k, key);
      if ops[k].key == key {
        assert Project(ops, order, key)[1..] == Project(ops, order[1..], key);
      } else {
        assert Project(ops, order, key) == Project(ops, order[1..], key);
      }
    }
  }

  lemma KeyWithout(ops: seq<Operation>, s: set<nat>, k: nat, key: string)
    requires k < |ops|
    ensures OnKey(ops, s - {k}, key) == if ops[k].key == key then OnKey(ops, s, key) - {k} else OnKey(ops, s, key)
  {
  }

  /** If the part of every key is well arranged, so is the whole. */
  lemma {:induction false} ArrangesFromKeys(ops: seq<Operation>, order: seq<nat>, required: set<nat>,
                                            optional: set<nat>)
    requires InRange(ops, order) && forall k <- required :: k < |ops|
    requires forall key :: Arranges(Project(ops, order, key), OnKey(ops, required, key), OnKey(ops, optional, key))
    ensures Arranges(order, required, optional)
    decreases |order|
  {
    if order == [] {
      forall key ensures OnKey(ops, required, key) == {} {
        assert Arranges(Project(ops, order, key), OnKey(ops, required, key), OnKey(ops, optional, key));
      }
      assert forall k <- required :: k in OnKey(ops, required, ops[k].key);
    } else {
      Shift(order);
      var k, rest := order[0], order[1..];
      forall key
        ensures Arranges(Project(ops, rest, key), OnKey(ops, required - {k}, key), OnKey(ops, optional - {k}, key))
      {
        assert Arranges(Project(ops, order, key), OnKey(ops, required, key), OnKey(ops, optional, key));
        KeyWithout(ops, required, k, key);
        KeyWithout(ops, optional, k, key);
        if ops[k].key == key {
          assert Project(ops, order, key)[1..] == Project(ops, rest, key);
        } else {
          assert Project(ops, order, key) == Project(ops, rest, key);
        }
      }
      assert Arranges(Project(ops, order, ops[k].key), OnKey(ops, required, ops[k].key),
                      OnKey(ops, optional, ops[k].key));
      ArrangesFromKeys(ops, rest, required - {k}, optional - {k});
    }
  }

  lemma {:induction false} ProjectTimed(ops: seq<Operation>, bound: set<nat>, order: seq<nat>, frontier: nat,
                                        key: string, earlier: nat)
    requires Timed(ops, bound, order, frontier) && earlier <= frontier
    ensures Timed(ops, OnKey(ops, bound, key), Project(ops, order, key), earlier)
    decreases |order|
  {
    if order != [] {
      var k := order[0];
      var f := Max(frontier, ops[k].invoke);
      if ops[k].key == key {
        ProjectTimed(ops, bound, order[1..], f, key, Max(earlier, ops[k].invoke));
        assert Project(ops, order, key)[1..] == Project(ops, order[1..], key);
      } else {
        ProjectTimed(ops, bound, order[1..], f, key, earlier);
        assert Project(ops, order, key) == Project(ops, order[1..], key);
      }
    }
  }

  // ----- merging two orders by the times at which their operations can take effect -----

  /** The earliest time the next operation of an order can take effect. */
  function Point(ops: seq<Operation>, order: seq<nat>, frontier: nat): nat
    requires order != [] && order[0] < |ops|
  {
    Max(frontier, ops[order[0]].invoke)
  }

  function MergeOrders(ops: seq<Operation>, a: seq<nat>, fa: nat, b: seq<nat>, fb: nat): seq<nat>
    requires InRange(ops, a) && InRange(ops, b)
    decreases |a| + |b|
  {
    if a == [] then b
    else if b == [] then a
    else if Point(ops, a, fa) <= Point(ops, b, fb)
    then [a[0]] + MergeOrders(ops, a[1..], Point(ops, a, fa), b, fb)
    else [b[0]] + MergeOrders(ops, a, fa, b[1..], Point(ops, b, fb))
  }

  lemma {:induction false} TimedEarlier(ops: seq<Operation>, bound: set<nat>, order: seq<nat>, frontier: nat, f: nat)
    requires Timed(ops, bound, order, frontier) && (order != [] ==> f <= Max(frontier, ops[order[0]].invoke))
    ensures Timed(ops, bound, order, f)
    decreases |order|
  {
    if order != [] {
      TimedEarlier(ops, bound, order[1..], Max(frontier, ops[order[0]].invoke), Max(f, ops[order[0]].invoke));
    }
  }

  /** Taking the operation with the earlier point first keeps both orders' deadlines. */
  lemma {:induction false} MergeTimed(ops: seq<Operation>, bound: set<nat>, a: seq<nat>, fa: nat, b: seq<nat>,
                                      fb: nat, f: nat)
    requires InRange(ops, a) && InRange(ops, b)
    requires Timed(ops, bound, a, fa) && Timed(ops, bound, b, fb)
    requires (a != [] ==> f <= Point(ops, a, fa)) && (b != [] ==> f <= Point(ops, b, fb))
    ensures Timed(ops, bound, MergeOrders(ops, a, fa, b, fb), f)
    decreases |a| + |b|
  {
    if a == [] {
      TimedEarlier(ops, bound, b, fb, f);
    } else if b == [] {
      TimedEarlier(ops, bound, a, fa, f);
    } else if Point(ops, a, fa) <= Point(ops, b, fb) {
      MergeTimed(ops, bound, a[1..], Point(ops, a, fa), b, fb, Max(f, ops[a[0]].invoke));
      assert MergeOrders(ops, a, fa, b, fb)[1..] == MergeOrders(ops, a[1..], Point(ops, a, fa), b, fb);
    } else {
      MergeTimed(ops, bound, a, fa, b[1..], Point(ops, b, fb), Max(f, ops[b[0]].invoke));
      assert MergeOrders(ops, a, fa, b, fb)[1..] == MergeOrders(ops, a, fa, b[1..], Point(ops, b, fb));
    }
  }

  lemma {:induction false} MergeInRange(ops: seq<Operation>, a: seq<nat>, fa: nat, b: seq<nat>, fb: nat)
    requires InRange(ops, a) && InRange(ops, b)
    ensures InRange(ops, MergeOrders(ops, a, fa, b, fb))
    decreases |a| + |b|
  {
    if a != [] && b != [] {
      if Point(ops, a, fa) <= Point(ops, b, fb) {
        MergeInRange(ops, a[1..], Point(ops, a, fa), b, fb);
      } else {
        MergeInRange(ops, a, fa, b[1..], Point(ops, b, fb));
      }
    }
  }

  lemma ProjectSnoc(ops: seq<Operation>, k: nat, rest: seq<nat>, key: string)
    requires k < |ops|
    ensures Project(ops, [k] + rest, key) ==
            if ops[k].key == key then [k] + Project(ops, rest, key) else Project(ops, rest, key)
  {
    assert ([k] + rest)[1..] == rest;
  }

  /** The part of a key that only one of two merged orders mentions is that order's part. */
  lemma {:induction false} MergeProjects(ops: seq<Operation>, a: seq<nat>, fa: nat, b: seq<nat>, fb: nat, key: string)
    requires InRange(ops, a) && InRange(ops, b)
    ensures Project(ops, a, key) == [] ==> Project(ops, MergeOrders(ops, a, fa, b, fb), key) == Project(ops, b, key)
    ensures Project(ops, b, key) == [] ==> Project(ops, MergeOrders(ops, a, fa, b, fb), key) == Project(ops, a, key)
    decreases |a| + |b|
  {
    if a != [] && b != [] {
      assert a == [a[0]] + a[1..] && b == [b[0]] + b[1..];
      ProjectSnoc(ops, a[0], a[1..], key);
      ProjectSnoc(ops, b[0], b[1..], key);
      if Point(ops, a, fa) <= Point(ops, b, fb) {
        MergeProjects(ops, a[1..], Point(ops, a, fa), b, fb, key);
        ProjectSnoc(ops, a[0], MergeOrders(ops, a[1..], Point(ops, a, fa), b, fb), key);
      } else {
        MergeProjects(ops, a, fa, b[1..], Point(ops, b, fb), key);
        ProjectSnoc(ops, b[0], MergeOrders(ops, a, fa, b[1..], Point(ops, b, fb)), key);
      }
    }
  }

  // ----- both directions of locality -----

  ghost predicate KeyFits(ops: seq<Operation>, confirmed: set<nat>, open: set<nat>, key: string, order: seq<nat>) {
    Fits(ops, OnKey(ops, confirmed, key), OnKey(ops, confirmed, key), OnKey(ops, open, key), None, 0, order)
  }

  lemma {:induction false} OnlyOnKey(ops: seq<Operation>, order: seq<nat>, key: string)
    requires InRange(ops, order) && forall a | 0 <= a < |order| :: ops[order[a]].key == key
    ensures Project(ops, order, key) == order
    ensures forall other | other != key :: Project(ops, order, other) == []
    decreases |order|
  {
    if order != [] {
      Shift(order);
      OnlyOnKey(ops, order[1..], key);
    }
  }

  lemma {:induction false} TimedOnKey(ops: seq<Operation>, bound: set<nat>, order: seq<nat>, frontier: nat, key: string)
    requires InRange(ops, order) && forall a | 0 <= a < |order| :: ops[order[a]].key == key
    requires Timed(ops, OnKey(ops, bound, key), order, frontier)
    ensures Timed(ops, bound, order, frontier)
    decreases |order|
  {
    if order != [] {
      Shift(order);
      TimedOnKey(ops, bound, order[1..], Max(frontier, ops[order[0]].invoke), key);
    }
  }

  /** An order for some keys: the part of each is a witness, other keys do not occur. */
  ghost predicate CoversKeys(ops: seq<Operation>, confirmed: set<nat>, open: set<nat>, keys: set<string>,
                             order: seq<nat>) {
    && InRange(ops, order)
    && Timed(ops, confirmed, order, 0)
    && (forall key | key in keys :: KeyFits(ops, confirmed, open, key, Project(ops, order, key)))
    && (forall key | key !in keys :: Project(ops, order, key) == [])
  }

  lemma WitnessStaysOnKey(ops: seq<Operation>, confirmed: set<nat>, open: set<nat>, key: string, order: seq<nat>)
    requires KeyFits(ops, confirmed, open, key, order)
    ensures InRange(ops, order) && forall a | 0 <= a < |order| :: ops[order[a]].key == key
  {
    ArrangesIff(order, OnKey(ops, confirmed, key), OnKey(ops, open, key));
    LegalInRange(ops, order, None);
    forall a | 0 <= a < |order| ensures ops[order[a]].key == key {
      assert order[a] in order;
    }
  }

  lemma AddKey(ops: seq<Operation>, confirmed: set<nat>, open: set<nat>, keys: set<string>, a: seq<nat>,
               key: string, b: seq<nat>)
    requires CoversKeys(ops, confirmed, open, keys, a) && key !in keys && KeyFits(ops, confirmed, open, key, b)
    ensures InRange(ops, b) && CoversKeys(ops, confirmed, open, keys + {key}, MergeOrders(ops, a, 0, b, 0))
  {
    hide MergeOrders, Project, Timed, OnKey;
    WitnessStaysOnKey(ops, confirmed, open, key, b);
    OnlyOnKey(ops, b, key);
    TimedOnKey(ops, confirmed, b, 0, key);
    MergeTimed(ops, confirmed, a, 0, b, 0, 0);
    MergeInRange(ops, a, 0, b, 0);
    var merged := MergeOrders(ops, a, 0, b, 0);
    forall k ensures Project(ops, merged, k) == if k == key then b else Project(ops, a, k) {
      MergeProjects(ops, a, 0, b, 0, k);
    }
  }

  lemma {:induction false} MergeKeys(ops: seq<Operation>, confirmed: set<nat>, open: set<nat>, keys: set<string>)
    returns (order: seq<nat>)
    requires forall key <- keys :: exists w :: KeyFits(ops, confirmed, open, key, w)
    ensures CoversKeys(ops, confirmed, open, keys, order)
    decreases keys
  {
    if keys == {} {
      order := [];
    } else {
      var key :| key in keys;
      var a := MergeKeys(ops, confirmed, open, keys - {key});
      var b :| KeyFits(ops, confirmed, open, key, b);
      AddKey(ops, confirmed, open, keys - {key}, a, key, b);
      order := MergeOrders(ops, a, 0, b, 0);
      assert keys - {key} + {key} == keys;
    }
  }

  function KeysOf(ops: seq<Operation>): set<string> { set i | 0 <= i < |ops| :: ops[i].key }

  lemma StoreLinearizationIff(ops: seq<Operation>, order: seq<nat>)
    ensures StoreLinearization(ops, order) <==>
            && Arranges(order, ConfirmedAt(ops), OpenAt(ops))
            && InRange(Settled(ops), order)
            && Timed(Settled(ops), ConfirmedAt(ops), order, 0)
            && StoreLegal(Settled(ops), order, map[])
  {
    ArrangesIff(order, ConfirmedAt(ops), OpenAt(ops));
    if forall k <- order :: k in ConfirmedAt(ops) || k in OpenAt(ops) {
      forall a | 0 <= a < |order| ensures order[a] < |Settled(ops)| { assert order[a] in order; }
      TimedIff(Settled(ops), ConfirmedAt(ops), order, 0);
    }
  }

  /** Locality: the whole history has one linearization exactly when every key's part has one. */
  lemma LinearizableIffEachKey(ops: seq<Operation>)
    ensures StoreLinearizable(ops) <==>
            forall key <- KeysOf(ops) ::
              Linearizable(Settled(ops), OnKey(Settled(ops), ConfirmedAt(ops), key),
                           OnKey(Settled(ops), OpenAt(ops), key))
  {
    var all, c, o := Settled(ops), ConfirmedAt(ops), OpenAt(ops);
    if StoreLinearizable(ops) {
      var order :| StoreLinearization(ops, order);
      StoreLinearizationIff(ops, order);
      forall key <- KeysOf(ops) ensures Linearizable(all, OnKey(all, c, key), OnKey(all, o, key)) {
        StoreLegalIffEachKey(all, order, map[]);
        assert Legal(all, Project(all, order, key), Reg(map[], key));
        ProjectArranges(all, order, c, o, key);
        ProjectTimed(all, c, order, 0, key, 0);
        LinearizationIffFits(all, OnKey(all, c, key), OnKey(all, o, key), Project(all, order, key));
      }
    }
    if forall key <- KeysOf(ops) :: Linearizable(all, OnKey(all, c, key), OnKey(all, o, key)) {
      forall key <- KeysOf(ops) ensures exists w :: KeyFits(all, c, o, key, w) {
        var w :| Linearization(all, OnKey(all, c, key), OnKey(all, o, key), w);
        LinearizationIffFits(all, OnKey(all, c, key), OnKey(all, o, key), w);
        assert KeyFits(all, c, o, key, w);
      }
      var order := MergeKeys(all, c, o, KeysOf(ops));
      MergedIsLinearization(ops, order);
    }
  }

  lemma MergedIsLinearization(ops: seq<Operation>, order: seq<nat>)
    requires CoversKeys(Settled(ops), ConfirmedAt(ops), OpenAt(ops), KeysOf(ops), order)
    ensures StoreLinearization(ops, order)
  {
    var all, c, o := Settled(ops), ConfirmedAt(ops), OpenAt(ops);
    forall key ensures Arranges(Project(all, order, key), OnKey(all, c, key), OnKey(all, o, key))
                       && Legal(all, Project(all, order, key), Reg(map[], key)) {
      if key in KeysOf(ops) {
        assert KeyFits(all, c, o, key, Project(all, order, key));
      } else {
        forall k | k in c && k < |all| ensures all[k].key != key { assert ops[k].key in KeysOf(ops); }
        assert OnKey(all, c, key) == {};
      }
    }
    ArrangesFromKeys(all, order, c, o);
    StoreLegalIffEachKey(all, order, map[]);
    StoreLinearizationIff(ops, order);
  }
}
