/** The replicated state machine of src/state_machine/kv.rs. */
module KvStore {
  import opened Types

  datatype Outcome = Done | NotFound | UnknownCommand

  /** Position of the first space, or the length if there is none. */
  function FirstSpace(s: string): (i: nat)
    ensures i <= |s|
    ensures forall k | 0 <= k < i :: s[k] != ' '
    ensures i < |s| ==> s[i] == ' '
  {
    if s == [] || s[0] == ' ' then 0 else 1 + FirstSpace(s[1..])
  }

  /** The command cut at its first two spaces. */
  function Split3(s: string): (parts: seq<string>)
    ensures 1 <= |parts| <= 3
  {
    var i := FirstSpace(s);
    if i == |s| then [s]
    else
      var rest := s[i + 1..];
      var j := FirstSpace(rest);
      if j == |rest| then [s[..i], rest] else [s[..i], rest[..j], rest[j + 1..]]
  }

  function Validate(command: string): (ok: bool) {
    var parts := Split3(command);
    command == NOOP_COMMAND || (|parts| == 3 && parts[0] == "SET") || (|parts| == 2 && parts[0] == "DELETE")
  }

  function ApplyCommand(data: Data, command: string): (Data, Outcome) {
    if command == NOOP_COMMAND then (data, Done)
    else
      var parts := Split3(command);
      if |parts| == 3 && parts[0] == "SET" then (data[parts[1] := parts[2]], Done)
      else if |parts| == 2 && parts[0] == "DELETE" then
        if parts[1] in data then (data - {parts[1]}, Done) else (data, NotFound)
      else (data, UnknownCommand)
  }

  /** The data after applying a whole log to an empty store. */
  function Replay(log: seq<Entry>): Data {
    if log == [] then map[] else ApplyCommand(Replay(log[..|log| - 1]), log[|log| - 1].command).0
  }

  /** Validation accepts exactly the commands that no store rejects as unknown. */
  lemma ValidateIffAlwaysKnown(command: string)
    ensures Validate(command) <==> forall data :: ApplyCommand(data, command).1 != UnknownCommand
  {
    if forall data :: ApplyCommand(data, command).1 != UnknownCommand {
      assert ApplyCommand(map[], command).1 != UnknownCommand;
    }
  }

  lemma {:induction false} FirstSpaceOfJoin(a: string, b: string)
    requires forall k | 0 <= k < |a| :: a[k] != ' '
    ensures FirstSpace(a + [' '] + b) == |a|
  {
    if a != [] {
      FirstSpaceOfJoin(a[1..], b);
      assert (a + [' '] + b)[1..] == a[1..] + [' '] + b;
    }
  }

  /** `SET key value` stores the value whole, spaces included, under any key without a space. */
  lemma SetStores(data: Data, key: string, value: string)
    requires ' ' !in key
    ensures Validate("SET " + key + " " + value)
    ensures ApplyCommand(data, "SET " + key + " " + value) == (data[key := value], Done)
  {
    var command := "SET " + key + " " + value;
    assert command == "SET" + [' '] + (key + [' '] + value);
    FirstSpaceOfJoin("SET", key + [' '] + value);
    FirstSpaceOfJoin(key, value);
    assert command[..3] == "SET";
    assert command[4..] == key + [' '] + value;
    assert command[4..][..|key|] == key;
    assert command[4..][|key| + 1..] == value;
    assert Split3(command) == ["SET", key, value];
    assert command[0] != NOOP_COMMAND[0];
  }

  /** The API forms the command from the key as it comes (src/api/client_http.rs:223): a key with a space is
      cut there, and its rest goes into the value. */
  lemma SetCutsKey(data: Data, before: string, after: string, value: string)
    requires ' ' !in before
    ensures var key := before + " " + after;
            ApplyCommand(data, "SET " + key + " " + value) == (data[before := after + " " + value], Done)
  {
    SetStores(data, before, after + " " + value);
    assert "SET " + (before + " " + after) + " " + value == "SET " + before + " " + (after + " " + value);
  }

  predicate SameAt(a: Data, b: Data, key: string) {
    (key in a <==> key in b) && (key in a && key in b ==> a[key] == b[key])
  }

  /** A command that does not succeed changes nothing, and no command changes more than one key. */
  lemma OnlyDoneChanges(data: Data, command: string)
    ensures var (data', outcome) := ApplyCommand(data, command);
            && (outcome != Done ==> data' == data)
            && (outcome == UnknownCommand <==> !Validate(command))
            && (forall k, l | k != l :: SameAt(data, data', k) || SameAt(data, data', l))
    ensures ApplyCommand(data, NOOP_COMMAND) == (data, Done)
  {
  }

  /** `DELETE key` removes exactly that key, and says whether it was there. */
  lemma DeleteRemoves(data: Data, key: string)
    requires ' ' !in key
    ensures ApplyCommand(data, "DELETE " + key) == if key in data then (data - {key}, Done) else (data, NotFound)
    ensures Validate("DELETE " + key)
  {
    var command := "DELETE " + key;
    assert command == "DELETE" + [' '] + key;
    FirstSpaceOfJoin("DELETE", key);
    NoSpace(key);
    assert command[..6] == "DELETE" && command[7..] == key;
    assert Split3(command) == ["DELETE", key];
    assert command[0] != NOOP_COMMAND[0];
  }

  lemma {:induction false} NoSpace(s: string)
    requires ' ' !in s
    ensures FirstSpace(s) == |s|
  {
    if s != [] { NoSpace(s[1..]); }
  }

  /** Deleting a key that was just set gives the store without that key. */
  lemma DeleteUndoesSet(data: Data, key: string, value: string)
    requires ' ' !in key
    ensures ApplyCommand(ApplyCommand(data, "SET " + key + " " + value).0, "DELETE " + key) == (data - {key}, Done)
    ensures key !in data ==> ApplyCommand(data, "DELETE " + key) == (data, NotFound)
  {
    SetStores(data, key, value);
    var command := "DELETE " + key;
    assert command == "DELETE" + [' '] + key;
    FirstSpaceOfJoin("DELETE", key);
    assert command[..6] == "DELETE";
    assert command[7..] == key;
    assert Split3(command) == ["DELETE", key];
    assert command[0] != NOOP_COMMAND[0];
    assert data[key := value] - {key} == data - {key};
  }

  /** The store as the source holds it: a map that commands and snapshots update in place. */
  class KeyValueStore {
    var data: Data

    constructor ()
      ensures data == map[]
    {
      data := map[];
    }

    method Apply(command: string) returns (outcome: Outcome)
      modifies this
      ensures (data, outcome) == ApplyCommand(old(data), command)
    {
      if command == NOOP_COMMAND {
        return Done;
      }
      var parts := Split3(command);
      if |parts| == 3 && parts[0] == "SET" {
        data := data[parts[1] := parts[2]];
        outcome := Done;
      } else if |parts| == 2 && parts[0] == "DELETE" {
        if parts[1] in data {
          data := data - {parts[1]};
          outcome := Done;
        } else {
          outcome := NotFound;
        }
      } else {
        outcome := UnknownCommand;
      }
    }

    method Restore(saved: Data)
      modifies this
      ensures data == saved
    {
      data := saved;
    }
  }
}
