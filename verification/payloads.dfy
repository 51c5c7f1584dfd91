/** The JSON payload of a file, and how a discriminator is read from it: a walk
    that decodes every object it passes into the map it started from. */
module Payloads {
  import opened Sequences

  datatype Json =
    | JsonString(text: string) | JsonNumber(digits: string) | JsonBoolean(truth: bool)
    | JsonArray(items: seq<Json>) | JsonObject(members: map<string, Json>) | JsonNull

  datatype ValueType = StringValue | NumberValue | BooleanValue | ArrayValue | ObjectValue

  /** The type of a value; null has none. */
  function TypeOf(value: Json): Option<ValueType> {
    match value
    case JsonString(_) => Some(StringValue)
    case JsonNumber(_) => Some(NumberValue)
    case JsonBoolean(_) => Some(BooleanValue)
    case JsonArray(_) => Some(ArrayValue)
    case JsonObject(_) => Some(ObjectValue)
    case JsonNull => None
  }

  /** A value as discriminator text. Null decodes into a string without error and
      leaves it empty. */
  function Scalar(value: Json): Option<string> {
    match value
    case JsonString(text) => Some(text)
    case JsonNull => Some("")
    case JsonNumber(digits) => Some(digits)
    case JsonBoolean(truth) => Some(if truth then "true" else "false")
    case JsonArray(_) => None
    case JsonObject(_) => None
  }

  /** What stands at a path: each name is looked up in the object before it. */
  function At(within: map<string, Json>, path: seq<string>): Option<string>
    decreases |path|
  {
    if path == [] || path[0] !in within then None
    else if |path| == 1 then Scalar(within[path[0]])
    else if within[path[0]].JsonObject? then At(within[path[0]].members, path[1..])
    else None
  }

  /** What the walk finds: each name is looked up in everything decoded so far. */
  function Walk(current: map<string, Json>, path: seq<string>): Option<string>
    decreases |path|
  {
    if path == [] || path[0] !in current then None
    else if |path| == 1 then Scalar(current[path[0]])
    else if current[path[0]].JsonObject? then Walk(current + current[path[0]].members, path[1..])
    else None
  }

  /** What the walk leaves of the payload it was given. */
  function Left(current: map<string, Json>, path: seq<string>): map<string, Json>
    decreases |path|
  {
    if |path| < 2 || path[0] !in current || !current[path[0]].JsonObject? then current
    else Left(current + current[path[0]].members, path[1..])
  }

  /** Walks a payload; the payload's own map is the cursor. */
  method PayloadValue(root: map<string, Json>, path: seq<string>)
    returns (value: Option<string>, left: map<string, Json>)
    ensures value == Walk(root, path) && left == Left(root, path)
  {
    left := root;
    for i := 0 to |path|
      invariant Walk(root, path) == Walk(left, path[i..]) && Left(root, path) == Left(left, path[i..])
    {
      if path[i] !in left { return None, left; }
      var raw := left[path[i]];
      if i == |path| - 1 { return Scalar(raw), left; }
      if !raw.JsonObject? { return None, left; }
      assert path[i..][1..] == path[i + 1..];
      left := left + raw.members;
    }
    return None, left;
  }

  // ---- where the walk strays ----------------------------------------------

  predicate Uniform(path: seq<string>) { forall i | 0 <= i < |path| :: path[i] == path[0] }

  /** How the two cursors stand while every name is a: in step, or both past the
      last object that holds a. */
  ghost predicate InStep(a: string, current: map<string, Json>, within: map<string, Json>) {
    if a in within then a in current && current[a] == within[a]
    else a in current ==> current[a].JsonObject? && a !in current[a].members
  }

  lemma {:induction false} UniformAgrees(
    a: string, current: map<string, Json>, within: map<string, Json>, path: seq<string>
  )
    requires forall i | 0 <= i < |path| :: path[i] == a
    requires |path| > 0 && InStep(a, current, within)
    ensures Walk(current, path) == At(within, path)
    decreases |path|
  {
    if |path| > 1 && a in current && current[a].JsonObject? {
      var members := current[a].members;
      if a in within {
        UniformAgrees(a, current + members, members, path[1..]);
      } else {
        Stuck(a, current, path);
      }
    }
  }

  lemma {:induction false} Stuck(a: string, current: map<string, Json>, path: seq<string>)
    requires forall i | 0 <= i < |path| :: path[i] == a
    requires a in current && current[a].JsonObject? && a !in current[a].members
    ensures Walk(current, path) == None
    decreases |path|
  {
    if |path| > 1 { Stuck(a, current + current[a].members, path[1..]); }
  }

  function Nest(z: string, depth: nat): Json {
    if depth == 0 then JsonString("x") else JsonObject(map[z := Nest(z, depth - 1)])
  }

  function Count(z: string, path: seq<string>): nat {
    if path == [] then 0 else (if path[0] == z then 1 else 0) + Count(z, path[1..])
  }

  /** A payload that holds the path's last name once more than the path spells it,
      and an empty object under every other name. */
  function Stray(z: string, path: seq<string>): map<string, Json>
    requires Count(z, path) > 0
  {
    map p | p in path :: if p == z then Nest(z, Count(z, path) - 1) else JsonObject(map[])
  }

  lemma {:induction false} StrayFound(z: string, current: map<string, Json>, path: seq<string>)
    requires path != [] && path[|path| - 1] == z
    requires forall p | p in path :: p in current
    requires Count(z, path) > 0 && current[z] == Nest(z, Count(z, path) - 1)
    requires forall p | p in path && p != z :: current[p] == JsonObject(map[])
    ensures Walk(current, path) == Some("x")
  {
    if |path| > 1 {
      assert path[0] in path && path[1..][|path| - 2] == z;
      CountLast(z, path[1..]);
      var members := current[path[0]].members;
      StrayFound(z, current + members, path[1..]);
    } else {
      assert Count(z, path[1..]) == 0;
    }
  }

  lemma {:induction false} CountLast(z: string, path: seq<string>)
    requires path != [] && path[|path| - 1] == z
    ensures Count(z, path) > 0
  {
    if |path| > 1 {
      assert path[1..][|path| - 2] == z;
      CountLast(z, path[1..]);
    }
  }

  lemma {:induction false} NestLacks(z: string, depth: nat, path: seq<string>)
    requires exists i :: 0 <= i < |path| && path[i] != z
    ensures At(map[z := Nest(z, depth)], path) == None
  {
    if path[0] == z && depth > 0 {
      var i :| 0 <= i < |path| && path[i] != z;
      assert path[1..][i - 1] != z;
      NestLacks(z, depth - 1, path[1..]);
    }
  }

  lemma {:induction false} StrayIsNotThere(path: seq<string>)
    requires !Uniform(path)
    ensures Count(path[|path| - 1], path) > 0
    ensures var z := path[|path| - 1]; At(Stray(z, path), path) == None && Walk(Stray(z, path), path) == Some("x")
  {
    var z := path[|path| - 1];
    CountLast(z, path);
    assert z in path && path[0] in path;
    StrayFound(z, Stray(z, path), path);
    if path[0] == z && Count(z, path) > 1 {
      var i :| 0 <= i < |path| && path[i] != path[0];
      assert path[1..][i - 1] != z;
      NestLacks(z, Count(z, path) - 2, path[1..]);
    }
  }

  /** The walk reads what stands at the path, in every payload, exactly when the
      path repeats one name. */
  lemma {:induction false} ReadsThePathExactly(path: seq<string>)
    ensures (forall root :: Walk(root, path) == At(root, path)) <==> Uniform(path)
  {
    if Uniform(path) {
      if path != [] {
        forall root ensures Walk(root, path) == At(root, path) { UniformAgrees(path[0], root, root, path); }
      }
    } else {
      StrayIsNotThere(path);
    }
  }

  /** The walk leaves every payload as it was exactly when it reads at most one
      name. */
  lemma {:induction false} LeavesThePayloadExactly(path: seq<string>)
    ensures (forall root :: Left(root, path) == root) <==> |path| <= 1
  {
    if |path| > 1 {
      var a := path[0];
      var root := map[a := JsonObject(map[a := JsonString("")])];
      assert Left(root, path) == Left(root + root[a].members, path[1..]);
      assert (root + root[a].members)[a] == JsonString("");
      Stays(root + root[a].members, path[1..], a);
      assert Left(root, path)[a] != root[a];
    }
  }

  /** A name holding no object still holds it when the walk is over. */
  lemma {:induction false} Stays(current: map<string, Json>, path: seq<string>, a: string)
    requires current == map[a := JsonString("")]
    ensures Left(current, path) == current
  {
  }

  /** A nested discriminator read from beside its object: the walk finds a name
      in the payload itself that the object it was asked to look in lacks. */
  lemma {:induction false} NestedReadStrays()
    ensures var root := map["data" := JsonObject(map[]), "spec" := JsonString("v2")];
      At(root, ["data", "spec"]) == None && Walk(root, ["data", "spec"]) == Some("v2")
  {
    var root := map["data" := JsonObject(map[]), "spec" := JsonString("v2")];
    assert ["data", "spec"][1..] == ["spec"];
    assert root + map[] == root;
  }
}
