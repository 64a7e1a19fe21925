/** Values shared by every part of the model: log entries, the RPC arguments and
    results of src/core/raft_core.rs, and the state of one Raft node. Terms, indices and
    node identifiers are naturals; clocks and the leader hint are not part of this model. */
module Types {

  datatype Option<+T> = None | Some(value: T)

  datatype Role = Follower | Candidate | Leader

  /** `index` is the 1-based position of the entry in the whole log. */
  datatype Entry = Entry(term: nat, index: nat, command: string)

  const NOOP_COMMAND := "NOOP"

  /** The key-value data that the replicated commands act on. */
  type Data = map<string, string>

  datatype VoteArgs = VoteArgs(term: nat, candidateId: nat, lastLogIndex: nat, lastLogTerm: nat)

  datatype VoteResult = VoteResult(term: nat, granted: bool)

  datatype AppendArgs = AppendArgs(term: nat, leaderId: nat, prevLogIndex: nat, prevLogTerm: nat,
                                   entries: seq<Entry>, leaderCommit: nat)

  datatype AppendResult = AppendResult(term: nat, success: bool,
                                       conflictTerm: Option<nat>, conflictIndex: Option<nat>)

  datatype Snapshot = Snapshot(lastIndex: nat, lastTerm: nat, data: Data)

  datatype InstallArgs = InstallArgs(term: nat, leaderId: nat, snapshot: Snapshot)

  datatype InstallResult = Installed(term: nat) | Refused(term: nat)

  /** What a node finds on its disk when it starts. */
  datatype Stored = Stored(term: nat, votedFor: Option<nat>, log: seq<Entry>, snapshot: Option<Snapshot>)

  /** The memory of one node. `log[0]` is the entry after the snapshot. */
  datatype Core = Core(
    id: nat,
    peers: seq<nat>,
    term: nat,
    votedFor: Option<nat>,
    log: seq<Entry>,
    snapIndex: nat,
    snapTerm: nat,
    commit: nat,
    applied: nat,
    next: map<nat, nat>,
    acked: map<nat, nat>,   // the source's match_index
    role: Role,
    votes: seq<nat>,
    threshold: nat,         // applied entries between automatic snapshots, 0 for none
    data: Data)

  function Min(a: nat, b: nat): nat { if a <= b then a else b }

  function Max(a: nat, b: nat): nat { if a <= b then b else a }

  function Lookup(m: map<nat, nat>, k: nat, default: nat): nat { if k in m then m[k] else default }

  type Log = seq<Entry>

  /** Terms never fall along the log. */
  predicate Rising(log: Log) { forall j, k | 0 <= j <= k < |log| :: log[j].term <= log[k].term }

  /** Entries carry consecutive indices, the first being `before + 1`. */
  predicate Contiguous(before: nat, log: seq<Entry>) {
    forall k | 0 <= k < |log| :: log[k].index == before + 1 + k
  }

  /** The index before the batch's own first entry; a sender may name an earlier one. */
  function Start(req: AppendArgs): nat {
    if req.entries == [] then req.prevLogIndex
    else if req.entries[0].index > 0 then req.entries[0].index - 1 else 0
  }

  /** A batch without gaps in itself: what any filter of a numbered log gives. */
  predicate Numbered(req: AppendArgs) { Contiguous(Start(req), req.entries) }
}
