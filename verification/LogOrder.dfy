/** A log of commands as an order of client operations: if every command is one recorded write and every
    read shows what some prefix of the log leaves, the history is linearizable, provided the log and
    the prefixes respect real time. */
module LogOrder {
  import opened Types
  import opened Linearizability
  import opened Locality
  import KvStore

  function Get(data: Data, key: string): Option<string> { if key in data then Some(data[key]) else None }

  /** Where the operations go: a write at log index n at place 2n, a read of the first n entries at 2n + 1. */
  type Places = map<nat, nat>

  predicate WritePlaced(log: Log, op: Operation, place: nat) {
    var n := place / 2;
    && place % 2 == 0 && 1 <= n <= |log| && ' ' !in op.key
    && op.kind.Write? && (op.result == WriteOk || op.result == Error)
    && log[n - 1].command == "SET " + op.key + " " + op.kind.value
  }

  predicate ReadPlaced(log: Log, op: Operation, place: nat) {
    var n := place / 2;
    && place % 2 == 1 && n <= |log|
    && op.kind.Read? && op.result == ReadOk(Get(KvStore.Replay(log[..n]), op.key))
  }

  ghost predicate AllPlaced(log: Log, ops: seq<Operation>, at: Places) {
    && (forall j <- at :: j < |ops| && (WritePlaced(log, ops[j], at[j]) || ReadPlaced(log, ops[j], at[j])))
    && (forall j | 0 <= j < |ops| && IsConfirmed(ops[j]) :: j in at)
  }

  ghost predicate Taken(at: Places, place: nat) { exists j :: j in at && at[j] == place }

  /** No two writes at one index, and no command that is nobody's. */
  ghost predicate LogCovered(log: Log, ops: seq<Operation>, at: Places) {
    && (forall j, k | j in at && k in at && at[j] == at[k] && at[j] % 2 == 0 :: j == k)
    && (forall i | 0 <= i < |log| && log[i].command != NOOP_COMMAND :: Taken(at, 2 * (i + 1)))
  }

  /** What ended before something else began is not placed after it. */
  ghost predicate RealTimePlaced(ops: seq<Operation>, at: Places)
    requires forall j <- at :: j < |ops|
  {
    && (forall j <- at :: IsConfirmed(ops[j]) ==> ops[j].invoke <= ops[j].complete)
    && (forall j, k | j in at && k in at && IsConfirmed(ops[j]) && ops[j].complete < ops[k].invoke :: at[j] <= at[k])
  }

  ghost predicate Placed(log: Log, ops: seq<Operation>, at: Places) {
    AllPlaced(log, ops, at) && LogCovered(log, ops, at) && RealTimePlaced(ops, at)
  }

  // ----- the order -----

  predicate Before(ops: seq<Operation>, at: Places, j: nat, k: nat)
    requires j in at && k in at && j < |ops| && k < |ops|
  {
    at[j] < at[k] || (at[j] == at[k] && ops[j].invoke <= ops[k].invoke)
  }

  ghost predicate InOrder(ops: seq<Operation>, at: Places, order: seq<nat>) {
    && (forall j <- order :: j in at && j < |ops|)
    && NoRepeats(order)
    && (forall a, b | 0 <= a < b < |order| :: Before(ops, at, order[a], order[b]))
  }

  lemma {:induction false} FirstOf(ops: seq<Operation>, at: Places, s: set<nat>) returns (j: nat)
    requires s != {} && s <= at.Keys && forall j <- at :: j < |ops|
    ensures j in s && forall k <- s :: Before(ops, at, j, k)
    decreases |s|
  {
    j :| j in s;
    if s != {j} {
      var first := FirstOf(ops, at, s - {j});
      var other := j;
      if !Before(ops, at, j, first) { j := first; }
      forall k <- s ensures Before(ops, at, j, k) { assert k == other || Before(ops, at, first, k); }
    }
  }

  lemma {:induction false} Arrange(ops: seq<Operation>, at: Places, s: set<nat>) returns (order: seq<nat>)
    requires s <= at.Keys && forall j <- at :: j < |ops|
    ensures InOrder(ops, at, order) && forall j :: j in order <==> j in s
    decreases |s|
  {
    order := [];
    if s != {} {
      var j := FirstOf(ops, at, s);
      var rest := Arrange(ops, at, s - {j});
      order := [j] + rest;
      assert forall a | 0 < a < |order| :: order[a] == rest[a - 1] && order[a] in rest;
    }
  }

  // ----- the order is legal -----

  ghost predicate StoreIs(store: Store, data: Data) { forall key :: Reg(store, key) == Get(data, key) }

  lemma {:induction false} NoopsLeave(log: Log, q: nat, n: nat)
    requires q <= n <= |log| && forall i | q <= i < n :: log[i].command == NOOP_COMMAND
    ensures KvStore.Replay(log[..n]) == KvStore.Replay(log[..q])
    decreases n
  {
    if q < n {
      NoopsLeave(log, q, n - 1);
      assert log[..n][..n - 1] == log[..n - 1];
    }
  }

  /** `order` is all that goes after the first q entries. */
  ghost predicate Rest(log: Log, ops: seq<Operation>, at: Places, order: seq<nat>, q: nat) {
    && InOrder(ops, at, order) && q <= |log|
    && (forall j <- order :: at[j] > 2 * q)
    && (forall j <- at :: at[j] > 2 * q && at[j] % 2 == 0 ==> j in order)
  }

  lemma FirstIsFirst(ops: seq<Operation>, at: Places, order: seq<nat>, j: nat)
    requires InOrder(ops, at, order) && j in order
    ensures order[0] in at && at[order[0]] <= at[j]
  {
    if j != order[0] {
      var a :| 0 <= a < |order| && order[a] == j;
      assert order[0] in order && Before(ops, at, order[0], order[a]);
    }
  }

  lemma NoopBetween(log: Log, ops: seq<Operation>, at: Places, order: seq<nat>, q: nat, i: nat)
    requires LogCovered(log, ops, at) && Rest(log, ops, at, order, q) && order != [] && order[0] in at
    requires q <= i < |log| && 2 * (i + 1) < at[order[0]]
    ensures log[i].command == NOOP_COMMAND
  {
    if log[i].command != NOOP_COMMAND {
      assert Taken(at, 2 * (i + 1));
      var j :| j in at && at[j] == 2 * (i + 1);
      FirstIsFirst(ops, at, order, j);
      assert false;
    }
  }

  /** Up to its first operation nothing but no-ops is applied. */
  lemma NothingBetween(log: Log, ops: seq<Operation>, at: Places, order: seq<nat>, q: nat, n: nat)
    requires LogCovered(log, ops, at) && Rest(log, ops, at, order, q) && order != [] && order[0] in at
    requires q <= n <= |log| && 2 * n < at[order[0]]
    ensures KvStore.Replay(log[..n]) == KvStore.Replay(log[..q])
  {
    hide LogCovered, Rest;
    forall i | q <= i < n ensures log[i].command == NOOP_COMMAND {
      NoopBetween(log, ops, at, order, q, i);
    }
    NoopsLeave(log, q, n);
  }

  lemma RestShrinks(log: Log, ops: seq<Operation>, at: Places, order: seq<nat>, q: nat)
    requires Placed(log, ops, at) && Rest(log, ops, at, order, q) && order != []
    ensures Rest(log, ops, at, order[1..], at[order[0]] / 2)
  {
    var j := order[0];
    forall k <- order[1..] ensures at[k] > 2 * (at[j] / 2) {
      assert Before(ops, at, j, k);
      assert k != j;
    }
    forall k <- at | at[k] > 2 * (at[j] / 2) && at[k] % 2 == 0 ensures k in order[1..] {
      assert k in order && k != j;
    }
  }

  lemma WriteStores(log: Log, op: Operation, place: nat, store: Store)
    requires WritePlaced(log, op, place) && StoreIs(store, KvStore.Replay(log[..place / 2 - 1]))
    ensures StoreIs(store[op.key := Some(op.kind.value)], KvStore.Replay(log[..place / 2]))
  {
    SetReplays(log, place / 2, op.key, op.kind.value);
    hide StoreIs, KvStore.Replay;
    BothStore(store, KvStore.Replay(log[..place / 2 - 1]), op.key, op.kind.value);
  }

  lemma SetReplays(log: Log, n: nat, key: string, value: string)
    requires 1 <= n <= |log| && ' ' !in key && log[n - 1].command == "SET " + key + " " + value
    ensures KvStore.Replay(log[..n]) == KvStore.Replay(log[..n - 1])[key := value]
  {
    assert log[..n][..n - 1] == log[..n - 1] && log[..n][n - 1] == log[n - 1];
    KvStore.SetStores(KvStore.Replay(log[..n - 1]), key, value);
    hide KvStore.ApplyCommand;
  }

  lemma BothStore(store: Store, data: Data, key: string, value: string)
    requires StoreIs(store, data)
    ensures StoreIs(store[key := Some(value)], data[key := value])
  {
    var store', data' := store[key := Some(value)], data[key := value];
    forall k ensures Reg(store', k) == Get(data', k) { assert Reg(store, k) == Get(data, k); }
  }

  /** The operation as the order sees it: an unanswered write counts as one that succeeded. */
  function Seen(op: Operation): Operation { if IsIndeterminate(op) then op.(result := WriteOk) else op }

  ghost predicate Happens(op: Operation, store: Store, data: Data) {
    && TryApply(op, Reg(store, op.key)).0
    && StoreIs(store[op.key := TryApply(op, Reg(store, op.key)).1], data)
  }

  lemma WriteHappens(log: Log, op: Operation, place: nat, store: Store)
    requires WritePlaced(log, op, place) && StoreIs(store, KvStore.Replay(log[..place / 2 - 1]))
    ensures Happens(Seen(op), store, KvStore.Replay(log[..place / 2]))
  {
    WriteStores(log, op, place, store);
    hide KvStore.Replay, StoreIs, Reg;
  }

  lemma ReadHappens(log: Log, op: Operation, place: nat, store: Store)
    requires ReadPlaced(log, op, place) && StoreIs(store, KvStore.Replay(log[..place / 2]))
    ensures Happens(Seen(op), store, KvStore.Replay(log[..place / 2]))
  {
    ReadLeaves(store, KvStore.Replay(log[..place / 2]), op.key);
    hide KvStore.Replay, StoreIs, Reg;
  }

  lemma FirstPlaced(log: Log, ops: seq<Operation>, at: Places, order: seq<nat>, q: nat)
    requires Placed(log, ops, at) && Rest(log, ops, at, order, q) && order != []
    ensures order[0] in at && order[0] < |ops| && at[order[0]] > 2 * q && q <= |log| && LogCovered(log, ops, at)
    ensures var op, place := ops[order[0]], at[order[0]]; WritePlaced(log, op, place) || ReadPlaced(log, op, place)
  {
    assert order[0] in order;
    hide InOrder, LogCovered, RealTimePlaced, WritePlaced, ReadPlaced;
  }

  /** The first operation can happen on a store that holds what the first q entries leave. */
  lemma FirstHappens(log: Log, ops: seq<Operation>, at: Places, order: seq<nat>, q: nat, store: Store)
    requires Placed(log, ops, at) && Rest(log, ops, at, order, q) && order != []
    requires StoreIs(store, KvStore.Replay(log[..q]))
    ensures order[0] in at && order[0] < |ops| && at[order[0]] / 2 <= |log|
    ensures Happens(Settled(ops)[order[0]], store, KvStore.Replay(log[..at[order[0]] / 2]))
  {
    FirstPlaced(log, ops, at, order, q);
    var j := order[0];
    var op, n := ops[j], at[j] / 2;
    assert Settled(ops)[j] == Seen(op);
    hide Placed, Rest, LogCovered, KvStore.Replay, StoreIs, Happens, Settled, Seen;
    if WritePlaced(log, op, at[j]) {
      NothingBetween(log, ops, at, order, q, n - 1);
      WriteHappens(log, op, at[j], store);
    } else {
      NothingBetween(log, ops, at, order, q, n);
      ReadHappens(log, op, at[j], store);
    }
  }

  lemma ReadLeaves(store: Store, data: Data, key: string)
    requires StoreIs(store, data)
    ensures Reg(store, key) == Get(data, key) && StoreIs(store[key := Reg(store, key)], data)
  {
    var store' := store[key := Reg(store, key)];
    forall k ensures Reg(store', k) == Get(data, k) { assert Reg(store, k) == Get(data, k); }
  }

  lemma {:induction false} RestIsLegal(log: Log, ops: seq<Operation>, at: Places, order: seq<nat>, q: nat, store: Store)
    requires Placed(log, ops, at) && Rest(log, ops, at, order, q) && StoreIs(store, KvStore.Replay(log[..q]))
    ensures StoreLegal(Settled(ops), order, store)
    decreases |order|
  {
    hide Placed, StoreIs, KvStore.Replay, Rest, Reg, TryApply;
    if order != [] {
      FirstHappens(log, ops, at, order, q, store);
      RestShrinks(log, ops, at, order, q);
      var op := Settled(ops)[order[0]];
      RestIsLegal(log, ops, at, order[1..], at[order[0]] / 2, store[op.key := TryApply(op, Reg(store, op.key)).1]);
    }
  }

  // ----- the theorem -----

  lemma OrderRespectsTime(log: Log, ops: seq<Operation>, at: Places, order: seq<nat>)
    requires Placed(log, ops, at) && InOrder(ops, at, order)
    ensures RealTime(Settled(ops), ConfirmedAt(ops), order)
  {
    forall a, b | 0 <= a <= b < |order| && order[b] in ConfirmedAt(ops)
      ensures ops[order[a]].invoke <= ops[order[b]].complete
    {
      assert order[a] in order && order[b] in order;
      if a < b { assert Before(ops, at, order[a], order[b]); }
    }
  }

  /** Operations that a log places in real time are linearizable. */
  lemma PlacedIsLinearizable(log: Log, ops: seq<Operation>, at: Places)
    requires Placed(log, ops, at)
    ensures StoreLinearizable(ops)
  {
    var order := Arrange(ops, at, at.Keys);
    OrderRespectsTime(log, ops, at, order);
    forall j <- at ensures at[j] > 0 { assert WritePlaced(log, ops[j], at[j]) || ReadPlaced(log, ops[j], at[j]); }
    assert StoreIs(map[], KvStore.Replay(log[..0]));
    assert Rest(log, ops, at, order, 0);
    RestIsLegal(log, ops, at, order, 0, map[]);
    assert StoreLinearization(ops, order);
  }
}
