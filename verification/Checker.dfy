/** The Wing-Gong search of chaos-test/src/checker.rs decides linearizability of one register. */
module Checker {
  import opened Types
  import opened Linearizability

  datatype CheckResult = CheckResult(isLinearizable: bool, linearization: Option<seq<nat>>)

  /** The operation ids the search has placed so far; pushed and popped while backtracking. */
  class IdList {
    var ids: seq<nat>

    constructor ()
      ensures ids == []
    {
      ids := [];
    }

    method Push(id: nat)
      modifies this
      ensures ids == old(ids) + [id]
    {
      ids := ids + [id];
    }

    method Pop()
      requires ids != []
      modifies this
      ensures ids == old(ids)[..|old(ids)| - 1]
    {
      ids := ids[..|ids| - 1];
    }
  }

  function Elements(s: seq<nat>): set<nat> { set k | k in s }

  ghost function Ids(ops: seq<Operation>, order: seq<nat>): seq<nat>
    requires InRange(ops, order)
  {
    seq(|order|, a requires 0 <= a < |order| => ops[order[a]].id)
  }

  /** The sequence without one position. */
  function Without(s: seq<nat>, k: nat): (r: seq<nat>)
    ensures Elements(r) == Elements(s) - {k}
    ensures |r| <= |s| && (k in s ==> |r| < |s|)
  {
    if s == [] then []
    else
      assert Elements(s) == Elements(s[1..]) + {s[0]};
      if s[0] == k then Without(s[1..], k)
      else
        var rest := Without(s[1..], k);
        assert Elements([s[0]] + rest) == {s[0]} + Elements(rest);
        [s[0]] + rest
  }

  /** Earliest completion among required operations. */
  function MinComplete(ops: seq<Operation>, required: seq<nat>): (m: nat)
    requires required != [] && InRange(ops, required)
    ensures forall k <- required :: m <= ops[k].complete
    ensures exists k :: k in required && m == ops[k].complete
  {
    if |required| == 1 then ops[required[0]].complete
    else
      var rest := MinComplete(ops, required[1..]);
      assert forall k <- required :: k == required[0] || k in required[1..];
      assert required[0] in required;
      Min(ops[required[0]].complete, rest)
  }

  // ----- candidates, most promising first -----

  datatype Choice = Choice(position: nat, isOptional: bool)

  predicate Offers(cs: seq<Choice>, k: nat) { Choice(k, false) in cs || Choice(k, true) in cs }

  predicate EarlierThan(a: Operation, b: Operation) {
    a.invoke < b.invoke || (a.invoke == b.invoke && a.kind.Write? && b.kind.Read?)
  }

  predicate CandidatesInRange(ops: seq<Operation>, cs: seq<Choice>) {
    forall a | 0 <= a < |cs| :: cs[a].position < |ops|
  }

  predicate InOrder(ops: seq<Operation>, cs: seq<Choice>)
    requires CandidatesInRange(ops, cs)
  {
    forall a, b | 0 <= a < b < |cs| :: !EarlierThan(ops[cs[b].position], ops[cs[a].position])
  }

  function Insert(ops: seq<Operation>, c: Choice, cs: seq<Choice>): (r: seq<Choice>)
    requires c.position < |ops| && CandidatesInRange(ops, cs)
    ensures multiset(r) == multiset(cs) + multiset{c} && CandidatesInRange(ops, r)
    decreases |cs|
  {
    if cs == [] || !EarlierThan(ops[cs[0].position], ops[c.position]) then
      assert multiset([c] + cs) == multiset{c} + multiset(cs);
      [c] + cs
    else
      assert cs == [cs[0]] + cs[1..];
      [cs[0]] + Insert(ops, c, cs[1..])
  }

  /** A stable sort by invocation time, writes before reads. */
  function SortCandidates(ops: seq<Operation>, cs: seq<Choice>): (r: seq<Choice>)
    requires CandidatesInRange(ops, cs)
    ensures multiset(r) == multiset(cs) && CandidatesInRange(ops, r)
    decreases |cs|
  {
    if cs == [] then []
    else
      assert cs == [cs[0]] + cs[1..];
      Insert(ops, cs[0], SortCandidates(ops, cs[1..]))
  }

  lemma {:induction false} InsertInOrder(ops: seq<Operation>, c: Choice, cs: seq<Choice>)
    requires c.position < |ops| && CandidatesInRange(ops, cs) && InOrder(ops, cs)
    ensures InOrder(ops, Insert(ops, c, cs))
    decreases |cs|
  {
    if cs != [] && EarlierThan(ops[cs[0].position], ops[c.position]) {
      var rest := Insert(ops, c, cs[1..]);
      assert forall a, b | 0 <= a < b < |cs[1..]| :: cs[1..][a] == cs[a + 1] && cs[1..][b] == cs[b + 1];
      InsertInOrder(ops, c, cs[1..]);
      forall b | 0 <= b < |rest| ensures !EarlierThan(ops[rest[b].position], ops[cs[0].position]) {
        assert rest[b] in multiset(rest);
        if rest[b] != c {
          assert rest[b] in cs[1..];
          var d :| 0 <= d < |cs[1..]| && cs[1..][d] == rest[b];
          assert cs[d + 1] == rest[b];
        }
      }
    }
  }

  /** The candidates are tried in that order. */
  lemma {:induction false} SortInOrder(ops: seq<Operation>, cs: seq<Choice>)
    requires CandidatesInRange(ops, cs)
    ensures InOrder(ops, SortCandidates(ops, cs))
    decreases |cs|
  {
    if cs != [] {
      SortInOrder(ops, cs[1..]);
      InsertInOrder(ops, cs[0], SortCandidates(ops, cs[1..]));
    }
  }

  /** An operation may come next: nothing still required ends before it begins, and it does not
      end before the frontier. */
  predicate MayBeNext(op: Operation, deadline: nat, frontier: nat) {
    op.invoke <= deadline && op.complete >= frontier
  }

  // ----- the search -----

  /** Nothing that starts with position k completes the search. */
  ghost predicate DeadEnd(ops: seq<Operation>, bound: set<nat>, required: set<nat>, optional: set<nat>,
                          reg: Register, frontier: nat, k: nat) {
    forall order :: order != [] && order[0] == k ==> !Fits(ops, bound, required, optional, reg, frontier, order)
  }

  ghost predicate NoneFits(ops: seq<Operation>, bound: set<nat>, required: set<nat>, optional: set<nat>,
                           reg: Register, frontier: nat) {
    forall order :: !Fits(ops, bound, required, optional, reg, frontier, order)
  }

  ghost predicate AllDead(ops: seq<Operation>, bound: set<nat>, required: set<nat>, optional: set<nat>,
                          reg: Register, frontier: nat, cs: seq<Choice>) {
    forall c <- cs :: DeadEnd(ops, bound, required, optional, reg, frontier, c.position)
  }

  lemma OneMoreDead(ops: seq<Operation>, bound: set<nat>, required: set<nat>, optional: set<nat>,
                    reg: Register, frontier: nat, cs: seq<Choice>, n: nat)
    requires n < |cs| && AllDead(ops, bound, required, optional, reg, frontier, cs[..n])
    requires DeadEnd(ops, bound, required, optional, reg, frontier, cs[n].position)
    ensures AllDead(ops, bound, required, optional, reg, frontier, cs[..n + 1])
  {
    assert cs[..n + 1] == cs[..n] + [cs[n]];
  }

  lemma StepFits(ops: seq<Operation>, bound: set<nat>, required: set<nat>, optional: set<nat>,
                 reg: Register, frontier: nat, k: nat, rest: seq<nat>)
    requires k < |ops| && (k in required || k in optional) && TryApply(ops[k], reg).0
    requires Max(frontier, ops[k].invoke) <= ops[k].complete
    requires Fits(ops, bound, required - {k}, optional - {k}, TryApply(ops[k], reg).1,
                  Max(frontier, ops[k].invoke), rest)
    ensures Fits(ops, bound, required, optional, reg, frontier, [k] + rest)
  {
    assert ([k] + rest)[1..] == rest;
  }

  lemma NoStepFits(ops: seq<Operation>, bound: set<nat>, required: set<nat>, optional: set<nat>,
                   reg: Register, frontier: nat, k: nat)
    requires k < |ops|
    requires TryApply(ops[k], reg).0 ==>
               NoneFits(ops, bound, required - {k}, optional - {k}, TryApply(ops[k], reg).1,
                        Max(frontier, ops[k].invoke))
    ensures DeadEnd(ops, bound, required, optional, reg, frontier, k)
  {
    forall order | order != [] && order[0] == k ensures !Fits(ops, bound, required, optional, reg, frontier, order) {
      assert TryApply(ops[k], reg).0 ==>
          !Fits(ops, bound, required - {k}, optional - {k}, TryApply(ops[k], reg).1, Max(frontier, ops[k].invoke),
                order[1..]);
    }
  }

  /** Neither the frontier nor the deadline loses an answer: whatever fits starts with a candidate. */
  lemma FitsStartsWithCandidate(ops: seq<Operation>, bound: set<nat>, required: seq<nat>, optional: seq<nat>,
                                reg: Register, frontier: nat, order: seq<nat>)
    requires required != [] && InRange(ops, required) && InRange(ops, optional)
    requires Elements(required) <= bound && Elements(optional) <= bound
    requires Fits(ops, bound, Elements(required), Elements(optional), reg, frontier, order)
    ensures order != [] && (order[0] in required || order[0] in optional)
    ensures MayBeNext(ops[order[0]], MinComplete(ops, required), frontier)
  {
    assert required[0] in Elements(required);
    FrontierBelowRequired(ops, bound, Elements(required), Elements(optional), frontier, order);
    var r :| r in required && MinComplete(ops, required) == ops[r].complete;
    assert r in Elements(required);
  }

  lemma CandidatesCover(ops: seq<Operation>, bound: set<nat>, required: seq<nat>, optional: seq<nat>,
                        reg: Register, frontier: nat, cs: seq<Choice>)
    requires required != [] && InRange(ops, required) && InRange(ops, optional)
    requires Elements(required) <= bound && Elements(optional) <= bound
    requires forall k | (k in required || k in optional) && MayBeNext(ops[k], MinComplete(ops, required), frontier) ::
               Offers(cs, k)
    requires AllDead(ops, bound, Elements(required), Elements(optional), reg, frontier, cs)
    ensures NoneFits(ops, bound, Elements(required), Elements(optional), reg, frontier)
  {
    forall order ensures !Fits(ops, bound, Elements(required), Elements(optional), reg, frontier, order) {
      if Fits(ops, bound, Elements(required), Elements(optional), reg, frontier, order) {
        FitsStartsWithCandidate(ops, bound, required, optional, reg, frontier, order);
      }
    }
  }

  method CollectCandidates(ops: seq<Operation>, required: seq<nat>, optional: seq<nat>, deadline: nat, frontier: nat)
    returns (cs: seq<Choice>)
    requires InRange(ops, required) && InRange(ops, optional)
    ensures CandidatesInRange(ops, cs)
    ensures forall c <- cs ::
              && c.position in (if c.isOptional then optional else required)
              && MayBeNext(ops[c.position], deadline, frontier)
    ensures forall k | (k in required || k in optional) && MayBeNext(ops[k], deadline, frontier) ::
              Offers(cs, k)
  {
    cs := [];
    for n := 0 to |required|
      invariant CandidatesInRange(ops, cs)
      invariant forall c <- cs ::
          c.position in required && !c.isOptional && MayBeNext(ops[c.position], deadline, frontier)
      invariant forall m | 0 <= m < n && MayBeNext(ops[required[m]], deadline, frontier) ::
          Offers(cs, required[m])
    {
      if MayBeNext(ops[required[n]], deadline, frontier) {
        cs := cs + [Choice(required[n], false)];
      }
    }
    for n := 0 to |optional|
      invariant CandidatesInRange(ops, cs)
      invariant forall c <- cs ::
          && c.position in (if c.isOptional then optional else required)
          && MayBeNext(ops[c.position], deadline, frontier)
      invariant forall m | 0 <= m < |required| && MayBeNext(ops[required[m]], deadline, frontier) ::
          Offers(cs, required[m])
      invariant forall m | 0 <= m < n && MayBeNext(ops[optional[m]], deadline, frontier) ::
          Offers(cs, optional[m])
    {
      if MayBeNext(ops[optional[n]], deadline, frontier) {
        cs := cs + [Choice(optional[n], true)];
      }
    }
  }

  /** Sorting loses no candidate and adds none. */
  lemma {:induction false} SortKeeps(ops: seq<Operation>, cs: seq<Choice>)
    requires CandidatesInRange(ops, cs)
    ensures forall c :: c in SortCandidates(ops, cs) <==> c in cs
  {
    var r := SortCandidates(ops, cs);
    forall c ensures c in r <==> c in cs {
      assert c in r <==> c in multiset(r);
      assert c in cs <==> c in multiset(cs);
    }
  }

  /** On success the list gained the ids of an order that fits. */
  ghost predicate Found(ops: seq<Operation>, bound: set<nat>, required: set<nat>, optional: set<nat>,
                        reg: Register, frontier: nat, before: seq<nat>, after: seq<nat>) {
    exists order :: Fits(ops, bound, required, optional, reg, frontier, order)
                    && InRange(ops, order) && after == before + Ids(ops, order)
  }

  lemma FoundStep(ops: seq<Operation>, bound: set<nat>, required: set<nat>, optional: set<nat>,
                  reg: Register, frontier: nat, k: nat, before: seq<nat>, after: seq<nat>)
    requires k < |ops| && (k in required || k in optional) && TryApply(ops[k], reg).0
    requires Max(frontier, ops[k].invoke) <= ops[k].complete
    requires Found(ops, bound, required - {k}, optional - {k}, TryApply(ops[k], reg).1, Max(frontier, ops[k].invoke),
                   before + [ops[k].id], after)
    ensures Found(ops, bound, required, optional, reg, frontier, before, after)
  {
    var rest :| Fits(ops, bound, required - {k}, optional - {k}, TryApply(ops[k], reg).1,
                     Max(frontier, ops[k].invoke), rest)
                && InRange(ops, rest) && after == before + [ops[k].id] + Ids(ops, rest);
    StepFits(ops, bound, required, optional, reg, frontier, k, rest);
    var order := [k] + rest;
    assert InRange(ops, order);
    assert Ids(ops, order) == [ops[k].id] + Ids(ops, rest);
    assert after == before + Ids(ops, order);
  }

  /** The operations left after choosing one keep what the search relies on. */
  ghost predicate Searchable(ops: seq<Operation>, required: seq<nat>, optional: seq<nat>, bound: set<nat>) {
    && InRange(ops, required) && InRange(ops, optional)
    && Elements(required) !! Elements(optional)
    && Elements(required) <= bound && Elements(optional) <= bound
    // Optional operations stay possible to the end.
    && (forall r, o | r in required && o in optional :: ops[r].complete <= ops[o].complete)
  }

  function Rest(c: Choice, required: seq<nat>, optional: seq<nat>): (seq<nat>, seq<nat>) {
    if c.isOptional then (required, Without(optional, c.position)) else (Without(required, c.position), optional)
  }

  lemma SubsetInRange(ops: seq<Operation>, s: seq<nat>, r: seq<nat>)
    requires InRange(ops, s) && Elements(r) <= Elements(s)
    ensures InRange(ops, r)
  {
    forall a | 0 <= a < |r| ensures r[a] < |ops| {
      assert r[a] in Elements(r);
      assert r[a] in Elements(s);
    }
  }

  lemma {:induction false} RestSearchable(ops: seq<Operation>, required: seq<nat>, optional: seq<nat>,
                                          bound: set<nat>, c: Choice, frontier: nat)
    requires Searchable(ops, required, optional, bound) && required != []
    requires c.position in (if c.isOptional then optional else required)
    requires c.position < |ops| && MayBeNext(ops[c.position], MinComplete(ops, required), frontier)
    ensures var (required', optional') := Rest(c, required, optional);
            && Searchable(ops, required', optional', bound)
            && Elements(required') == Elements(required) - {c.position}
            && Elements(optional') == Elements(optional) - {c.position}
            && |required'| + |optional'| < |required| + |optional|
    ensures Max(frontier, ops[c.position].invoke) <= ops[c.position].complete
  {
    var (required', optional') := Rest(c, required, optional);
    var k := c.position;
    assert k in Elements(if c.isOptional then optional else required);
    SubsetInRange(ops, required, required');
    SubsetInRange(ops, optional, optional');
    forall r, o | r in required' && o in optional' ensures ops[r].complete <= ops[o].complete {
      assert r in Elements(required') && o in Elements(optional');
    }
    var r :| r in required && MinComplete(ops, required) == ops[r].complete;
  }

  /** The backtracking search finds an order that completes the history if there is one, and then
      `placed` has gained exactly its ids; otherwise `placed` is as before. */
  method Search(ops: seq<Operation>, required: seq<nat>, optional: seq<nat>, reg: Register, frontier: nat,
                placed: IdList, ghost bound: set<nat>) returns (found: bool)
    requires Searchable(ops, required, optional, bound)
    modifies placed
    ensures found ==> Found(ops, bound, Elements(required), Elements(optional), reg, frontier, old(placed.ids),
                            placed.ids)
    ensures !found ==> placed.ids == old(placed.ids)
    ensures !found ==> NoneFits(ops, bound, Elements(required), Elements(optional), reg, frontier)
    decreases |required| + |optional|
  {
    ghost var before := placed.ids;
    if required == [] {
      assert Fits(ops, bound, Elements(required), Elements(optional), reg, frontier, []);
      assert placed.ids == before + Ids(ops, []);
      return true;
    }
    var deadline := MinComplete(ops, required);
    var collected := CollectCandidates(ops, required, optional, deadline, frontier);
    var cs := SortCandidates(ops, collected);
    SortKeeps(ops, collected);
    for n := 0 to |cs|
      invariant placed.ids == before
      invariant AllDead(ops, bound, Elements(required), Elements(optional), reg, frontier, cs[..n])
    {
      var k := cs[n].position;
      assert cs[n] in cs && cs[n] in collected;
      var (isValid, newReg) := TryApply(ops[k], reg);
      if isValid {
        RestSearchable(ops, required, optional, bound, cs[n], frontier);
        var (newRequired, newOptional) := Rest(cs[n], required, optional);
        placed.Push(ops[k].id);
        found := Search(ops, newRequired, newOptional, newReg, Max(frontier, ops[k].invoke), placed, bound);
        if found {
          assert k in Elements(required) || k in Elements(optional);
          FoundStep(ops, bound, Elements(required), Elements(optional), reg, frontier, k, before, placed.ids);
          return true;
        }
        placed.Pop();
      }
      NoStepFits(ops, bound, Elements(required), Elements(optional), reg, frontier, k);
      OneMoreDead(ops, bound, Elements(required), Elements(optional), reg, frontier, cs, n);
    }
    assert cs[..|cs|] == cs;
    CandidatesCover(ops, bound, required, optional, reg, frontier, cs);
    return false;
  }

  // ----- one key -----

  predicate Between(low: nat, k: nat, high: nat) { low <= k < high }

  function Positions(low: nat, high: nat): set<nat> { set k: nat | k < high && Between(low, k, high) }

  /** What is searched: the confirmed operations, then the indeterminate writes as if acknowledged. */
  function Combined(ops: seq<Operation>, indeterminate: seq<Operation>): seq<Operation> {
    ops + seq(|indeterminate|, i requires 0 <= i < |indeterminate| => indeterminate[i].(result := WriteOk))
  }

  ghost predicate KeyLinearizable(ops: seq<Operation>, indeterminate: seq<Operation>) {
    Linearizable(Combined(ops, indeterminate), Positions(0, |ops|), Positions(|ops|, |ops| + |indeterminate|))
  }

  /** A read sees the starting value or one that some earlier operation of the order wrote. */
  lemma {:induction false} ReadsWereWritten(ops: seq<Operation>, order: seq<nat>, reg: Register, k: nat)
    requires Legal(ops, order, reg) && k in order && k < |ops| && ops[k].kind == Read && ops[k].result.ReadOk?
    ensures ops[k].result.value == reg
            || exists j :: j in order && j < |ops| && ops[j].kind.Write?
                           && ops[k].result.value == Some(ops[j].kind.value)
    decreases |order|
  {
    assert forall j <- order :: j == order[0] || j in order[1..];
    if k != order[0] {
      ReadsWereWritten(ops, order[1..], TryApply(ops[order[0]], reg).1, k);
    }
  }

  /** Once something is written the register never reads as missing again. */
  lemma {:induction false} NeverMissingAgain(ops: seq<Operation>, order: seq<nat>, reg: Register, w: nat, r: nat)
    requires Legal(ops, order, reg)
    requires 0 <= w < r < |order| && order[w] < |ops| && ops[order[w]].kind.Write?
    requires order[r] < |ops| && ops[order[r]].kind == Read
    ensures ops[order[r]].result != ReadOk(None)
    decreases |order|
  {
    var reg' := TryApply(ops[order[0]], reg).1;
    Shift(order);
    if w > 0 {
      NeverMissingAgain(ops, order[1..], reg', w - 1, r - 1);
    } else {
      NotMissing(ops, order[1..], reg', r - 1);
    }
  }

  lemma {:induction false} NotMissing(ops: seq<Operation>, order: seq<nat>, reg: Register, r: nat)
    requires Legal(ops, order, reg) && reg.Some?
    requires r < |order| && order[r] < |ops| && ops[order[r]].kind == Read
    ensures ops[order[r]].result != ReadOk(None)
    decreases |order|
  {
    Shift(order);
    if r > 0 { NotMissing(ops, order[1..], TryApply(ops[order[0]], reg).1, r - 1); }
  }

  /** The first fast rejection is sound: a value nobody wrote cannot be read. */
  lemma UnwrittenReadRejects(ops: seq<Operation>, indeterminate: seq<Operation>, k: nat)
    requires k < |ops| && ops[k].kind == Read && ops[k].result.ReadOk? && ops[k].result.value.Some?
    requires forall op | op in ops || op in indeterminate :: op.kind != Write(ops[k].result.value.value)
    ensures !KeyLinearizable(ops, indeterminate)
  {
    var all := Combined(ops, indeterminate);
    var confirmed, open := Positions(0, |ops|), Positions(|ops|, |ops| + |indeterminate|);
    forall order ensures !Linearization(all, confirmed, open, order) {
      if Linearization(all, confirmed, open, order) {
        assert k in confirmed && all[k] == ops[k];
        ReadsWereWritten(all, order, None, k);
      }
    }
  }

  /** The second fast rejection is sound: a read that began after a confirmed write ended cannot find
      the key missing. */
  lemma StaleReadRejects(ops: seq<Operation>, indeterminate: seq<Operation>, r: nat, w: nat)
    requires r < |ops| && ops[r].kind == Read && ops[r].result == ReadOk(None)
    requires w < |ops| && ops[w].kind.Write? && ops[w].complete < ops[r].invoke
    ensures !KeyLinearizable(ops, indeterminate)
  {
    var all := Combined(ops, indeterminate);
    var confirmed, open := Positions(0, |ops|), Positions(|ops|, |ops| + |indeterminate|);
    forall order ensures !Linearization(all, confirmed, open, order) {
      if Linearization(all, confirmed, open, order) {
        assert r in confirmed && w in confirmed && all[r] == ops[r] && all[w] == ops[w];
        var a :| 0 <= a < |order| && order[a] == w;
        var b :| 0 <= b < |order| && order[b] == r;
        if a < b { NeverMissingAgain(all, order, None, a, b); }
      }
    }
  }

  /** Latest completion of the history of one key, 0 if there is none. */
  function MaxComplete(ops: seq<Operation>): (m: nat)
    ensures forall op <- ops :: op.complete <= m
  {
    if ops == [] then 0
    else
      assert forall op <- ops :: op == ops[0] || op in ops[1..];
      Max(ops[0].complete, MaxComplete(ops[1..]))
  }

  /** The indeterminate writes as they are searched, ending at the latest completion time. */
  function Extended(ops: seq<Operation>, indeterminate: seq<Operation>): seq<Operation> {
    var maxTs := MaxComplete(ops + indeterminate);
    ops + seq(|indeterminate|, i requires 0 <= i < |indeterminate| =>
      indeterminate[i].(result := WriteOk, complete := maxTs))
  }

  lemma ExtendedDeadlines(ops: seq<Operation>, indeterminate: seq<Operation>)
    ensures var all, ext := Combined(ops, indeterminate), Extended(ops, indeterminate);
            && SameButDeadlines(all, ext, Positions(|ops|, |all|))
            && (forall k: nat | k < |ops| :: ext[k] == ops[k] && ops[k].complete <= MaxComplete(ops + indeterminate))
            && (forall k: nat | |ops| <= k < |ext| :: ext[k].complete == MaxComplete(ops + indeterminate))
  {
    assert forall k: nat | k < |ops| :: ops[k] in ops + indeterminate;
  }

  /** Searching with extended deadlines decides linearizability with open ones. */
  lemma ExtensionDecides(ops: seq<Operation>, indeterminate: seq<Operation>)
    ensures var all, ext := Combined(ops, indeterminate), Extended(ops, indeterminate);
            var c, o := Positions(0, |ops|), Positions(|ops|, |all|);
            && (NoneFits(ext, c + o, c, o, None, 0) ==> !KeyLinearizable(ops, indeterminate))
            && (forall order :: Fits(ext, c + o, c, o, None, 0, order) ==> Linearization(all, c, o, order))
  {
    var all, ext := Combined(ops, indeterminate), Extended(ops, indeterminate);
    var c, o := Positions(0, |ops|), Positions(|ops|, |all|);
    var maxTs := MaxComplete(ops + indeterminate);
    ExtendedDeadlines(ops, indeterminate);
    forall order | Fits(ext, c + o, c, o, None, 0, order) ensures Linearization(all, c, o, order) {
      DeadlinesOnlyRestrict(all, ext, c, o, c + o, order, 0);
      LegalIgnoresDeadlines(all, ext, o, order, None);
      LinearizationIffFits(all, c, o, order);
    }
    if KeyLinearizable(ops, indeterminate) {
      var order :| Linearization(all, c, o, order);
      LinearizationIffFits(all, c, o, order);
      var cut := CutMeetsDeadlines(all, ext, c, o, maxTs, c + o, c, o, None, 0, order);
      assert Fits(ext, c + o, c, o, None, 0, cut);
    }
  }

  lemma StartSearchable(ops: seq<Operation>, indeterminate: seq<Operation>, required: seq<nat>, optional: seq<nat>)
    requires required == seq(|ops|, i requires 0 <= i < |ops| => i)
    requires optional == seq(|indeterminate|, i requires 0 <= i < |indeterminate| => |ops| + i)
    ensures Elements(required) == Positions(0, |ops|)
    ensures Elements(optional) == Positions(|ops|, |ops| + |indeterminate|)
    ensures Searchable(Extended(ops, indeterminate), required, optional, Elements(required) + Elements(optional))
  {
    ExtendedDeadlines(ops, indeterminate);
    forall k: nat | k in Positions(0, |ops|) ensures k in required {
      assert required[k] == k;
    }
    forall k: nat | k in Positions(|ops|, |ops| + |indeterminate|) ensures k in optional {
      assert optional[k - |ops|] == k;
    }
  }

  /** What a positive answer carries: the ids of a witness. */
  ghost predicate WitnessIds(ops: seq<Operation>, indeterminate: seq<Operation>, ids: seq<nat>) {
    exists order ::
      && Linearization(Combined(ops, indeterminate), Positions(0, |ops|),
                       Positions(|ops|, |ops| + |indeterminate|), order)
      && InRange(Combined(ops, indeterminate), order)
      && ids == Ids(Combined(ops, indeterminate), order)
  }

  lemma FoundIsWitness(ops: seq<Operation>, indeterminate: seq<Operation>, ids: seq<nat>)
    requires var c, o := Positions(0, |ops|), Positions(|ops|, |ops| + |indeterminate|);
             Found(Extended(ops, indeterminate), c + o, c, o, None, 0, [], ids)
    ensures WitnessIds(ops, indeterminate, ids)
  {
    var all, ext := Combined(ops, indeterminate), Extended(ops, indeterminate);
    var c, o := Positions(0, |ops|), Positions(|ops|, |ops| + |indeterminate|);
    var order :| Fits(ext, c + o, c, o, None, 0, order) && InRange(ext, order) && ids == [] + Ids(ext, order);
    ExtendedDeadlines(ops, indeterminate);
    ExtensionDecides(ops, indeterminate);
    assert Ids(ext, order) == Ids(all, order);
  }

  lemma EmptyIsWitness()
    ensures WitnessIds([], [], [])
  {
    var all := Combined([], []);
    assert Ids(all, []) == [];
    assert Positions(0, 0) == {};
    hide Combined, Ids, Positions;
    assert Linearization(all, {}, {}, []);
  }

  /** Single-key check: yes exactly for linearizable histories, and then with the ids of a witness. */
  method CheckSingleKey(ops: seq<Operation>, indeterminate: seq<Operation>) returns (r: CheckResult)
    ensures r.isLinearizable <==> KeyLinearizable(ops, indeterminate)
    ensures r.isLinearizable ==> r.linearization.Some? && WitnessIds(ops, indeterminate, r.linearization.value)
    ensures !r.isLinearizable ==> r.linearization == None
  {
    if ops == [] && indeterminate == [] {
      EmptyIsWitness();
      return CheckResult(true, Some([]));
    }
    var rejected := FastReject(ops, indeterminate);
    if rejected {
      return CheckResult(false, None);
    }
    var found, ids := SearchFromStart(ops, indeterminate);
    return if found then CheckResult(true, Some(ids)) else CheckResult(false, None);
  }

  method SearchFromStart(ops: seq<Operation>, indeterminate: seq<Operation>) returns (found: bool, ids: seq<nat>)
    ensures found <==> KeyLinearizable(ops, indeterminate)
    ensures found ==> WitnessIds(ops, indeterminate, ids)
  {
    var ext := Extended(ops, indeterminate);
    var required := seq(|ops|, i requires 0 <= i < |ops| => i);
    var optional := seq(|indeterminate|, i requires 0 <= i < |indeterminate| => |ops| + i);
    StartSearchable(ops, indeterminate, required, optional);
    var placed := new IdList();
    found := Search(ext, required, optional, None, 0, placed, Elements(required) + Elements(optional));
    ids := placed.ids;
    if found {
      FoundIsWitness(ops, indeterminate, ids);
    } else {
      ExtensionDecides(ops, indeterminate);
    }
  }

  predicate Wrote(ops: seq<Operation>, value: string) { exists op <- ops :: op.kind == Write(value) }

  /** The read shows a value that no operation, confirmed or not, wrote. */
  predicate ReadsUnwritten(ops: seq<Operation>, indeterminate: seq<Operation>, op: Operation) {
    && op.kind == Read && op.result.ReadOk? && op.result.value.Some?
    && !Wrote(ops, op.result.value.value) && !Wrote(indeterminate, op.result.value.value)
  }

  /** The read shows nothing although a confirmed write ended before it began. */
  predicate ReadsStale(ops: seq<Operation>, op: Operation) {
    op.kind == Read && op.result == ReadOk(None)
    && exists w <- ops :: w.kind.Write? && w.complete < op.invoke
  }

  /** The two quick checks before the search reject exactly the histories with a read of an unwritten value or
      a read of nothing after a write, and never a linearizable one. */
  method FastReject(ops: seq<Operation>, indeterminate: seq<Operation>) returns (rejected: bool)
    ensures rejected ==> !KeyLinearizable(ops, indeterminate)
    ensures rejected <==> exists op <- ops :: ReadsUnwritten(ops, indeterminate, op) || ReadsStale(ops, op)
  {
    var written: set<Option<string>> := {None};
    for n := 0 to |ops|
      invariant None in written
      invariant forall m | 0 <= m < n && ops[m].kind.Write? :: Some(ops[m].kind.value) in written
      invariant forall v | Some(v) in written :: Wrote(ops, v)
    {
      if ops[n].kind.Write? {
        assert ops[n] in ops;
        written := written + {Some(ops[n].kind.value)};
      }
    }
    for n := 0 to |indeterminate|
      invariant None in written
      invariant forall op | op in ops && op.kind.Write? :: Some(op.kind.value) in written
      invariant forall m | 0 <= m < n && indeterminate[m].kind.Write? :: Some(indeterminate[m].kind.value) in written
      invariant forall v | Some(v) in written :: Wrote(ops, v) || Wrote(indeterminate, v)
    {
      if indeterminate[n].kind.Write? {
        assert indeterminate[n] in indeterminate;
        written := written + {Some(indeterminate[n].kind.value)};
      }
    }
    hide KeyLinearizable;
    for n := 0 to |ops|
      invariant forall m | 0 <= m < n :: !ReadsUnwritten(ops, indeterminate, ops[m])
    {
      if ops[n].kind == Read && ops[n].result.ReadOk? && ops[n].result.value !in written {
        UnwrittenReadRejects(ops, indeterminate, n);
        assert ops[n] in ops && ReadsUnwritten(ops, indeterminate, ops[n]);
        return true;
      }
    }
    for n := 0 to |ops|
      invariant forall m | 0 <= m < n :: !ReadsStale(ops, ops[m])
    {
      if ops[n].kind == Read && ops[n].result == ReadOk(None) {
        for m := 0 to |ops|
          invariant forall k | 0 <= k < m :: !(ops[k].kind.Write? && ops[k].complete < ops[n].invoke)
        {
          if ops[m].kind.Write? && ops[m].complete < ops[n].invoke {
            StaleReadRejects(ops, indeterminate, n, m);
            assert ops[m] in ops && ops[n] in ops && ReadsStale(ops, ops[n]);
            return true;
          }
        }
      }
    }
    return false;
  }
}
