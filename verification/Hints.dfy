/** Conflict hints (src/core/raft_core.rs:307-343, 433-470, 901-922): how a leader finds where a
    follower's log departs from its own. `l` is the leader and `f` the follower, both without a
    snapshot; their logs stand still while the leader probes at falling next indexes `n`. */
module Hints {
  import opened Types
  import opened Collections
  import opened CoreSteps
  import opened History
  import opened Cluster
  import opened Invariant
  import opened VoteSteps
  import opened Safety

  function Answer(l: Core, f: Core, n: nat): AppendResult
    requires n >= 1
  {
    match CheckPrev(f, n - 1, PrevTerm(l, n - 1))
    case Agrees => AppendResult(f.term, true, None, None)
    case Conflict(t, i) => AppendResult(f.term, false, t, Some(i))
  }

  predicate Rejects(l: Core, f: Core, n: nat)
    requires n >= 1
  {
    CheckPrev(f, n - 1, PrevTerm(l, n - 1)) != Agrees
  }

  /** The next index after a rejected probe; strictly lower, and never 0. */
  function NextProbe(l: Core, f: Core, n: nat): (n': nat)
    requires n >= 1
    ensures 1 <= n' && (n > 1 ==> n' < n)
  {
    NextAfterRejection(l, n, Answer(l, f, n))
  }

  /** How many probes are rejected before one is accepted, starting at next index n. */
  function Rejections(l: Core, f: Core, n: nat): nat
    requires n >= 1
  {
    if n > 1 && Rejects(l, f, n) then 1 + Rejections(l, f, NextProbe(l, f, n)) else 0
  }

  /** The functions above are what the handlers do: a follower in the leader's term answers a batch
      at n by `Answer`, and the leader moves its next index for that peer by `NextProbe`. */
  lemma HandlersProbe(l: Core, f: Core, p: nat, n: nat, entries: seq<Entry>, index: nat)
    requires n >= 1 && f.term == l.term && l.role == Leader && NextFor(l, p) == n && p in l.next
    ensures HandleAppendEntries(AsWritten, f, AppendRequest(l, p, entries)).1 == Answer(l, f, n)
    ensures Rejects(l, f, n) ==>
              RecordReply(l, p, index, Answer(l, f, n)).next == l.next[p := NextProbe(l, f, n)]
  {
    var f2 := f.(role := Follower);
    CheckPrevIgnoresRole(f, n - 1, PrevTerm(l, n - 1));
  }

  lemma CheckPrevIgnoresRole(f: Core, prev: nat, term: nat)
    ensures CheckPrev(f.(role := Follower), prev, term) == CheckPrev(f, prev, term)
  {
    if GetEntry(f, prev).Some? { RunIgnoresRole(f, GetEntry(f, prev).value.term, prev); }
  }

  lemma {:induction false} RunIgnoresRole(f: Core, term: nat, from: nat)
    ensures FirstIndexOfRun(f.(role := Follower), term, from) == FirstIndexOfRun(f, term, from)
    decreases from
  {
    if from > f.snapIndex + 1 { RunIgnoresRole(f, term, from - 1); }
  }

  // ----- the two searches -----

  predicate HasTerm(log: Log, t: nat) { exists k :: 0 <= k < |log| && log[k].term == t }

  lemma {:induction false} RunStart(c: Core, t: nat, from: nat)
    requires Plain(c) && 1 <= from <= |c.log| && c.log[from - 1].term == t
    ensures var r := FirstIndexOfRun(c, t, from);
            && 1 <= r <= from && c.log[r - 1].term == t
            && (r > 1 ==> c.log[r - 2].term != t)
    decreases from
  {
    if from > 1 && c.log[from - 2].term == t { RunStart(c, t, from - 1); }
  }

  lemma {:induction false} LastOfTerm(log: Log, n: nat, t: nat)
    requires Contiguous(0, log) && Rising(log) && n <= |log|
    ensures match LastIndexInLog(log, n, t)
            case Some(i) => 1 <= i <= n && log[i - 1].term == t && forall k | i <= k < n :: log[k].term > t
            case None => forall k | 0 <= k < n :: log[k].term != t
    decreases n
  {
    if n > 0 && log[n - 1].term > t { LastOfTerm(log, n - 1, t); }
  }

  // ----- logs of reachable nodes -----

  ghost predicate Reachable(h: Hist, c: Core) { HistOk(h) && Follows(h.logs, c.log) && Plain(c) }

  lemma ReachableLog(h: Hist, c: Core)
    requires Reachable(h, c)
    ensures Contiguous(0, c.log) && Rising(c.log) && LastLogIndex(c) == |c.log|
  {
    PlainLog(h, c);
    forall j, k | 0 <= j <= k < |c.log| ensures c.log[j].term <= c.log[k].term {
      TermsMonotone(h, c.log, j, k);
    }
  }

  /** If the leader has the conflicting term at all, it has it only below the conflict. */
  lemma LeaderHasTermBelow(h: Hist, l: Core, f: Core, prev: nat, x: nat)
    requires Reachable(h, l) && Reachable(h, f)
    requires 1 <= prev <= |l.log| && prev <= |f.log| && l.log[prev - 1].term != f.log[prev - 1].term
    requires 1 <= x <= |l.log| && l.log[x - 1].term == f.log[prev - 1].term
    ensures x < prev
  {
    assert Rooted(h.logs, l.log, x - 1) && Rooted(h.logs, f.log, prev - 1);
    var leader := h.logs[f.log[prev - 1].term];
    assert leader[prev - 1] == leader[..prev][prev - 1] == f.log[prev - 1];
    assert forall k | 0 <= k < x :: l.log[k] == l.log[..x][k] == leader[..x][k];
  }

  /** Where the leader probes next after a rejection at n, in terms of the two logs. */
  lemma NextProbeCases(h: Hist, l: Core, f: Core, n: nat)
    requires Reachable(h, l) && Reachable(h, f) && 1 <= n <= |l.log| + 1 && Rejects(l, f, n)
    ensures n > 1
    ensures var prev, n' := n - 1, NextProbe(l, f, n);
            if prev > |f.log| then n' == |f.log| + 1
            else
              var t := f.log[prev - 1].term;
              && l.log[prev - 1].term != t
              && 1 <= n' <= prev
              && (if HasTerm(l.log, t)
                  then n' >= 2 && l.log[n' - 2].term == t
                       && (n' <= |l.log| ==> l.log[n' - 1].term > t)
                  else f.log[n' - 1].term == t && (n' > 1 ==> f.log[n' - 2].term != t))
  {
    ReachableLog(h, l);
    ReachableLog(h, f);
    var prev := n - 1;
    if prev <= |f.log| {
      var t := f.log[prev - 1].term;
      LastOfTerm(l.log, |l.log|, t);
      RunStart(f, t, prev);
      var found := LastIndexInLog(l.log, |l.log|, t);
      if found.Some? {
        LeaderHasTermBelow(h, l, f, prev, found.value);
      }
    }
  }

  /** A probe is never moved below the first index after the agreement of the two logs. */
  lemma NeverOvershoots(h: Hist, l: Core, f: Core, n: nat, agreed: nat)
    requires Reachable(h, l) && Reachable(h, f) && 1 <= n <= |l.log| + 1 && Rejects(l, f, n)
    requires agreed <= |l.log| && agreed <= |f.log| && l.log[..agreed] == f.log[..agreed]
    ensures agreed < NextProbe(l, f, n) < n
  {
    NextProbeCases(h, l, f, n);
    ReachableLog(h, l);
    ReachableLog(h, f);
    var prev, n' := n - 1, NextProbe(l, f, n);
    assert forall k | 0 <= k < agreed :: l.log[k] == l.log[..agreed][k] == f.log[k];
  }

  // ----- how many rejections -----

  function TermsOf(log: Log): set<nat> { set k | 0 <= k < |log| :: log[k].term }

  /** A prefix whose terms are all below t has fewer distinct terms than a log that has t. */
  lemma FewerTerms(log: Log, k: nat, prev: nat, t: nat)
    requires k <= prev <= |log| && prev >= 1 && log[prev - 1].term == t
    requires forall j | 0 <= j < k :: log[j].term < t
    ensures |TermsOf(log[..k])| < |TermsOf(log[..prev])|
  {
    var a, b := TermsOf(log[..k]), TermsOf(log[..prev]);
    assert log[..prev][prev - 1].term == t;
    forall x <- a ensures x in b && x != t {
      var j :| 0 <= j < k && log[..k][j].term == x;
      assert log[..prev][j].term == x;
    }
    assert t in b && a <= b - {t};
    SubsetSize(a, b - {t});
  }

  /** A rejection within the follower's log is the last one, or moves below all entries of the
      conflicting term. */
  lemma ProbeLeavesTerm(h: Hist, l: Core, f: Core, n: nat)
    requires Reachable(h, l) && Reachable(h, f) && 1 < n <= |l.log| + 1 && n - 1 <= |f.log| && Rejects(l, f, n)
    ensures var n' := NextProbe(l, f, n);
            && n' - 1 <= |f.log|
            && ((n' > 1 && !Rejects(l, f, n') && TermsOf(f.log[..n - 1]) != {})
                || |TermsOf(f.log[..n' - 1])| < |TermsOf(f.log[..n - 1])|)
  {
    NextProbeCases(h, l, f, n);
    ReachableLog(h, l);
    ReachableLog(h, f);
    var prev, n' := n - 1, NextProbe(l, f, n);
    var t := f.log[prev - 1].term;
    if n' > 1 && f.log[n' - 2].term == t {
      assert l.log[n' - 2].term == t;
      assert f.log[..prev][prev - 1].term in TermsOf(f.log[..prev]);
    } else {
      FewerTerms(f.log, n' - 1, prev, t);
    }
  }

  lemma {:induction false} RejectionsWithin(h: Hist, l: Core, f: Core, n: nat)
    requires Reachable(h, l) && Reachable(h, f) && 1 <= n <= |l.log| + 1 && n - 1 <= |f.log|
    ensures Rejections(l, f, n) <= |TermsOf(f.log[..n - 1])|
    decreases n
  {
    if n > 1 && Rejects(l, f, n) {
      ProbeLeavesTerm(h, l, f, n);
      RejectionsWithin(h, l, f, NextProbe(l, f, n));
      assert TermsOf(f.log[..n - 1]) != {} ==> |TermsOf(f.log[..n - 1])| >= 1;
    }
  }

  /** Starting anywhere up to one past the leader's log, a probe is accepted after at most one
      rejection more than there are distinct terms in the follower's log. */
  lemma FewRejections(h: Hist, l: Core, f: Core, n: nat)
    requires Reachable(h, l) && Reachable(h, f) && 1 <= n <= |l.log| + 1
    ensures Rejections(l, f, n) <= 1 + |TermsOf(f.log)|
  {
    assert f.log[..|f.log|] == f.log;
    if n - 1 <= |f.log| {
      RejectionsWithin(h, l, f, n);
      PrefixTerms(f.log, n - 1);
    } else if Rejects(l, f, n) {
      NextProbeCases(h, l, f, n);
      RejectionsWithin(h, l, f, |f.log| + 1);
    }
  }

  lemma PrefixTerms(log: Log, k: nat)
    requires k <= |log|
    ensures |TermsOf(log[..k])| <= |TermsOf(log)|
  {
    assert forall j | 0 <= j < k :: log[..k][j] == log[j];
    SubsetSize(TermsOf(log[..k]), TermsOf(log));
  }

  /** In every reachable state of a cluster, for any two nodes as leader and follower: at most one
      rejection more than the follower has terms, and no probe below the agreement of the logs. */
  lemma ProbesConverge(run: seq<State>, i: nat, j: nat, n: nat, agreed: nat)
    requires Run(LastNewEntry, run) && At(run, |run| - 1, i) && At(run, |run| - 1, j)
    requires 1 <= n <= |run[|run| - 1].nodes[i].log| + 1
    requires var l, f := run[|run| - 1].nodes[i], run[|run| - 1].nodes[j];
             agreed <= |l.log| && agreed <= |f.log| && l.log[..agreed] == f.log[..agreed]
    ensures var l, f := run[|run| - 1].nodes[i], run[|run| - 1].nodes[j];
            && Rejections(l, f, n) <= 1 + |TermsOf(f.log)|
            && (Rejects(l, f, n) ==> agreed < NextProbe(l, f, n) < n)
  {
    var h := RunHistory(run);
    var l, f := run[|run| - 1].nodes[i], run[|run| - 1].nodes[j];
    assert NodeOk(h, i, l) && NodeOk(h, j, f);
    FewRejections(h, l, f, n);
    if Rejects(l, f, n) { NeverOvershoots(h, l, f, n, agreed); }
  }
}
