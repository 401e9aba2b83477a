/**
  The wire key and the kind of value of every field of the claim set, in
  declaration order.

  The struct has no `rename_all`, so every key is the field identifier
  itself; the one exception is the field `git_ref`, whose key is `ref`.
 */
module FieldTable {

  /** The Rust type of a field, as far as its JSON mapping is concerned. */
  datatype Kind =
    | TextField           // String
    | TimestampField      // f64
    | OptionalTextField   // Option<String>
    | VisibilityField     // Visibility
    | RunnerField         // RunnerEnvironment

  datatype FieldSpec = FieldSpec(key: string, kind: Kind)

  /** The number of fields of the claim set. */
  const FieldCount: nat := 29

  /** The field at position `i`, counting from 0 in declaration order. */
  function Entry(i: int): FieldSpec
    requires 0 <= i < FieldCount
  {
    match i
    case 0 => FieldSpec("aud", TextField)
    case 1 => FieldSpec("iss", TextField)
    case 2 => FieldSpec("sub", TextField)
    case 3 => FieldSpec("exp", TimestampField)
    case 4 => FieldSpec("iat", TimestampField)
    case 5 => FieldSpec("jti", TextField)
    case 6 => FieldSpec("nbf", TimestampField)
    case 7 => FieldSpec("actor", TextField)
    case 8 => FieldSpec("actor_id", TextField)
    case 9 => FieldSpec("base_ref", TextField)
    case 10 => FieldSpec("environment", OptionalTextField)
    case 11 => FieldSpec("event_name", TextField)
    case 12 => FieldSpec("head_ref", TextField)
    case 13 => FieldSpec("job_workflow_ref", OptionalTextField)
    case 14 => FieldSpec("job_workflow_sha", OptionalTextField)
    case 15 => FieldSpec("ref", TextField)  // field git_ref
    case 16 => FieldSpec("ref_type", TextField)
    case 17 => FieldSpec("repository_visibility", VisibilityField)
    case 18 => FieldSpec("repository", TextField)
    case 19 => FieldSpec("repository_id", TextField)
    case 20 => FieldSpec("repository_owner", TextField)
    case 21 => FieldSpec("repository_owner_id", TextField)
    case 22 => FieldSpec("run_id", TextField)
    case 23 => FieldSpec("run_number", TextField)
    case 24 => FieldSpec("run_attempt", TextField)
    case 25 => FieldSpec("runner_environment", RunnerField)
    case 26 => FieldSpec("workflow", TextField)
    case 27 => FieldSpec("workflow_ref", TextField)
    case _ => FieldSpec("workflow_sha", TextField)
  }

  /** The table of all fields, in declaration order. */
  function Schema(): seq<FieldSpec> {
    seq(FieldCount, Entry)
  }

  /**
    The position of the field read from key `k`, or -1 when no field is;
    an independent lookup in the other direction that shows the keys distinct.
   */
  function PositionOfKey(k: string): (i: int)
    ensures -1 <= i < FieldCount
    ensures i != -1 ==> Entry(i).key == k
  {
    if k == "aud" then 0
    else if k == "iss" then 1
    else if k == "sub" then 2
    else if k == "exp" then 3
    else if k == "iat" then 4
    else if k == "jti" then 5
    else if k == "nbf" then 6
    else if k == "actor" then 7
    else if k == "actor_id" then 8
    else if k == "base_ref" then 9
    else if k == "environment" then 10
    else if k == "event_name" then 11
    else if k == "head_ref" then 12
    else if k == "job_workflow_ref" then 13
    else if k == "job_workflow_sha" then 14
    else if k == "ref" then 15
    else if k == "ref_type" then 16
    else if k == "repository_visibility" then 17
    else if k == "repository" then 18
    else if k == "repository_id" then 19
    else if k == "repository_owner" then 20
    else if k == "repository_owner_id" then 21
    else if k == "run_id" then 22
    else if k == "run_number" then 23
    else if k == "run_attempt" then 24
    else if k == "runner_environment" then 25
    else if k == "workflow" then 26
    else if k == "workflow_ref" then 27
    else if k == "workflow_sha" then 28
    else -1
  }

  // Finding a key compares it with every key before it, so the positions are
  // checked in three groups.

  lemma PositionOfEarlyKey(i: int)
    requires 0 <= i < 12
    ensures PositionOfKey(Entry(i).key) == i
  {
  }

  lemma PositionOfMiddleKey(i: int)
    requires 12 <= i < 21
    ensures PositionOfKey(Entry(i).key) == i
  {
  }

  lemma PositionOfLateKey(i: int)
    requires 21 <= i < FieldCount
    ensures PositionOfKey(Entry(i).key) == i
  {
  }

  lemma PositionOfEntryKey(i: int)
    requires 0 <= i < FieldCount
    ensures PositionOfKey(Entry(i).key) == i
  {
    if i < 12 {
      PositionOfEarlyKey(i);
    } else if i < 21 {
      PositionOfMiddleKey(i);
    } else {
      PositionOfLateKey(i);
    }
  }

  /** The keys of the three `Option<String>` fields. */
  const OptionalKeys: set<string> := {"environment", "job_workflow_ref", "job_workflow_sha"}

  /** A field is an `Option` field exactly when its key is one of `OptionalKeys`. */
  lemma OptionalEntries(i: int)
    requires 0 <= i < FieldCount
    ensures Entry(i).kind == OptionalTextField <==> Entry(i).key in OptionalKeys
  {
  }

  /** The keys of a list of fields. */
  function KeysOf(specs: seq<FieldSpec>): set<string> {
    set f | f in specs :: f.key
  }

  /** The keys of those of `specs` that are not `Option` fields. */
  function RequiredKeysOf(specs: seq<FieldSpec>): set<string> {
    set f | f in specs && f.kind != OptionalTextField :: f.key
  }

  predicate DistinctKeys(specs: seq<FieldSpec>) {
    forall i, j :: 0 <= i < j < |specs| ==> specs[i].key != specs[j].key
  }

  /** No two fields share a wire key. */
  lemma SchemaKeysDistinct()
    ensures DistinctKeys(Schema())
  {
    forall i, j | 0 <= i < j < |Schema()| ensures Schema()[i].key != Schema()[j].key {
      PositionOfEntryKey(i);
      PositionOfEntryKey(j);
    }
  }

  /** A key is read by some field exactly when `PositionOfKey` finds it. */
  lemma WireKeyPosition(k: string)
    ensures k in KeysOf(Schema()) <==> PositionOfKey(k) != -1
  {
    if k in KeysOf(Schema()) {
      var f :| f in Schema() && f.key == k;
      var i :| 0 <= i < |Schema()| && Schema()[i] == f;
      PositionOfEntryKey(i);
    }
    if PositionOfKey(k) != -1 {
      assert Schema()[PositionOfKey(k)] in Schema();
    }
  }
}
