/** Applying committed entries (src/core/raft_core.rs:719-753). */
module Applying {
  import opened Types
  import opened CoreSteps
  import KvStore

  function Applied(c: Core, e: Entry): Core {
    c.(applied := c.applied + 1, data := KvStore.ApplyCommand(c.data, e.command).0)
  }

  lemma ApplyUpToUnfolds(c: Core)
    ensures var e := GetEntry(c, c.applied + 1);
            ApplyUpTo(c) == if c.applied >= c.commit then c
            else if e.None? then c.(applied := c.applied + 1)
            else ApplyUpTo(Applied(c, e.value))
  {
  }

  /** Applying one entry after another is replaying the committed log. */
  lemma {:induction false} ApplyUpToReplays(c: Core)
    requires c.snapIndex == 0 && c.applied <= c.commit <= |c.log|
    requires c.data == KvStore.Replay(c.log[..c.applied])
    ensures ApplyUpTo(c) == c.(applied := c.commit, data := KvStore.Replay(c.log[..c.commit]))
    decreases c.commit - c.applied
  {
    hide KvStore.ApplyCommand;
    if c.applied < c.commit {
      var n := c.applied + 1;
      assert c.log[..n][..n - 1] == c.log[..n - 1];
      ApplyUpToReplays(c.(applied := n, data := KvStore.ApplyCommand(c.data, c.log[n - 1].command).0));
    }
  }

  lemma ApplyKeepsRest(c: Core)
    ensures var c' := ApplyCommitted(c); c'.term == c.term && c'.role == c.role && c'.votedFor == c.votedFor
    decreases c.commit - c.applied
  {
    ApplyUpToKeepsRest(c);
  }

  lemma {:induction false} ApplyUpToKeepsRest(c: Core)
    ensures ApplyUpTo(c) == c.(applied := ApplyUpTo(c).applied, data := ApplyUpTo(c).data)
    decreases c.commit - c.applied
  {
    hide KvStore.ApplyCommand;
    if c.applied < c.commit && GetEntry(c, c.applied + 1).Some? {
      ApplyUpToKeepsRest(c.(applied := c.applied + 1,
                         data := KvStore.ApplyCommand(c.data, GetEntry(c, c.applied + 1).value.command).0));
    }
  }
}
