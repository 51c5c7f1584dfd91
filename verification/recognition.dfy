/** What a module claims of a file by its declared rules. Reading a value at a path
    writes into the payload it is read from, so what one module is told can depend
    on which modules were asked before. */
module Recognition {
  import opened Payloads
  import opened Registry
  import opened Sequences

  datatype Payload = Payload(id: nat, container: Container, root: map<string, Json>)

  type File = seq<Payload>

  datatype Declared = Declared(id: string, readable: bool, rules: seq<Registry.Recognition>, specs: set<string>)

  // ---- one rule -----------------------------------------------------------

  /** The file after a value was read from one payload. */
  function Reading(file: File, i: nat, path: seq<string>): (after: File)
    requires i < |file|
    ensures |after| == |file|
  {
    file[i := file[i].(root := Left(file[i].root, path))]
  }

  function ValueIn(file: File, i: nat, path: seq<string>): Option<string>
    requires i < |file|
  {
    Walk(file[i].root, path)
  }

  predicate In(value: Option<string>, values: seq<string>) { value.Some? && value.value in values }

  /** Whether a value that outranks the rule stands in the file from payload i on. */
  function Superseded(rule: Registry.Recognition, file: File, i: nat): (r: (bool, File))
    ensures |r.1| == |file|
    decreases |file| - i
  {
    if rule.supersededBy == [] || i >= |file| then (false, file)
    else if !Takes(rule.containers, file[i].container) then Superseded(rule, file, i + 1)
    else
      var after := Reading(file, i, rule.path);
      if In(ValueIn(file, i, rule.path), rule.supersededBy) then (true, after) else Superseded(rule, after, i + 1)
  }

  predicate HasSpec(root: map<string, Json>) { "spec" in root && root["spec"].JsonString? && root["spec"].text != "" }

  /** The first payload from i on that the rule matches. */
  function Matched(rule: Registry.Recognition, file: File, i: nat, id: string): (r: (Option<Claim>, File))
    ensures |r.1| == |file|
    decreases |file| - i
  {
    if i >= |file| then (None, file)
    else if !Takes(rule.containers, file[i].container) then Matched(rule, file, i + 1, id)
    else if rule.Discriminator? then
      var after := Reading(file, i, rule.path);
      if In(ValueIn(file, i, rule.path), rule.values) then (Some(Claim(file[i].id, Authoritative, id)), after)
      else Matched(rule, after, i + 1, id)
    else if (rule.legacyOnly && HasSpec(file[i].root)) || !SignatureMatches(file[i].root, rule.required)
    then Matched(rule, file, i + 1, id)
    else (Some(Claim(file[i].id, Compatibility, "")), file)
  }

  /** The claim of the first rule from k on that matches and is not outranked. */
  function Claimed(rules: seq<Registry.Recognition>, k: nat, file: File, id: string): (r: (Option<Claim>, File))
    ensures |r.1| == |file|
    decreases |rules| - k
  {
    if k >= |rules| then (None, file)
    else
      var (outranked, seen) := Superseded(rules[k], file, 0);
      if outranked then Claimed(rules, k + 1, seen, id)
      else
        var (claim, after) := Matched(rules[k], seen, 0, id);
        if claim.Some? then (claim, after) else Claimed(rules, k + 1, after, id)
  }

  /** Whether the rule's path holds a value from payload i on that it cannot read. */
  function Unread(rule: Registry.Recognition, file: File, i: nat): (r: (bool, File))
    ensures |r.1| == |file|
    decreases |file| - i
  {
    if !rule.Discriminator? || i >= |file| then (false, file)
    else if !Takes(rule.containers, file[i].container) then Unread(rule, file, i + 1)
    else
      var value := ValueIn(file, i, rule.path);
      var (rest, after) := Unread(rule, Reading(file, i, rule.path), i + 1);
      ((value.Some? && value.value !in rule.values) || rest, after)
  }

  function UnreadRules(rules: seq<Registry.Recognition>, file: File): (bool, File)
  {
    if rules == [] then (false, file)
    else
      var (first, after) := Unread(rules[0], file, 0);
      var (rest, last) := UnreadRules(rules[1..], after);
      (first || rest, last)
  }

  // ---- the same as the loops that make it ---------------------------------

  /** Reads a value from a payload of the file, in place. */
  method ReadValue(file: array<Payload>, i: nat, path: seq<string>) returns (value: Option<string>)
    requires i < file.Length
    modifies file
    ensures value == ValueIn(old(file[..]), i, path) && file[..] == Reading(old(file[..]), i, path)
  {
    var root: map<string, Json>;
    value, root := PayloadValue(file[i].root, path);
    file[i] := file[i].(root := root);
  }

  method SupersededInFile(file: array<Payload>, rule: Registry.Recognition) returns (outranked: bool)
    modifies file
    ensures (outranked, file[..]) == Superseded(rule, old(file[..]), 0)
  {
    if |rule.supersededBy| == 0 { return false; }
    for i := 0 to file.Length
      invariant Superseded(rule, file[..], i) == Superseded(rule, old(file[..]), 0)
    {
      if !Takes(rule.containers, file[i].container) { continue; }
      var value := ReadValue(file, i, rule.path);
      if value.Some? && value.value in rule.supersededBy { return true; }
    }
    return false;
  }

  method MatchRule(file: array<Payload>, rule: Registry.Recognition, id: string) returns (claim: Option<Claim>)
    modifies file
    ensures (claim, file[..]) == Matched(rule, old(file[..]), 0, id)
  {
    for i := 0 to file.Length
      invariant Matched(rule, file[..], i, id) == Matched(rule, old(file[..]), 0, id)
    {
      if !Takes(rule.containers, file[i].container) { continue; }
      var payload := file[i].id;
      match rule
      case Discriminator(_, path, _, values) =>
        var value := ReadValue(file, i, path);
        if value.None? || value.value !in values { continue; }
        return Some(Claim(payload, Authoritative, id));
      case Signature(_, _, _, required, legacyOnly) =>
        if legacyOnly && HasSpec(file[i].root) { continue; }
        var matches := CheckSignature(file[i].root, required);
        if matches { return Some(Claim(payload, Compatibility, "")); }
    }
    return None;
  }

  /** Matches a file against declared rules. */
  method ClaimByDeclaration(file: array<Payload>, declared: Declared) returns (claim: Option<Claim>)
    modifies file
    ensures (claim, file[..]) == Claimed(declared.rules, 0, old(file[..]), declared.id)
  {
    for k := 0 to |declared.rules|
      invariant Claimed(declared.rules, k, file[..], declared.id) == Claimed(declared.rules, 0, old(file[..]), declared.id)
    {
      var outranked := SupersededInFile(file, declared.rules[k]);
      if outranked { continue; }
      claim := MatchRule(file, declared.rules[k], declared.id);
      if claim.Some? { return; }
    }
    return None;
  }

  // ---- a whole registry ---------------------------------------------------

  /** Each module as the file stands when it is asked. */
  function Asked(order: seq<Declared>, file: File): (r: (seq<Module>, File))
    ensures |r.0| == |order|
  {
    if order == [] then ([], file)
    else
      var m := order[0];
      var (claim, after) := if m.readable then Claimed(m.rules, 0, file, m.id) else (None, file);
      var (rest, last) := Asked(order[1..], after);
      ([Module(m.id, m.readable, claim, m.specs, false)] + rest, last)
  }

  function AllUnread(sorted: seq<Declared>, file: File): (bool, File) {
    if sorted == [] then (false, file)
    else
      var (first, after) := UnreadRules(sorted[0].rules, file);
      var (rest, last) := AllUnread(sorted[1..], after);
      (first || rest, last)
  }

  function Flagged(unread: bool): Module -> Module { (m: Module) => m.(unread := unread) }

  ghost function PayloadIds(file: File, whole: nat): set<nat> { (set p | p in file :: p.id) + {whole} }

  /** What a file resolves to when the modules are asked in this order; unread
      discriminators are looked for by id, whatever the order was. */
  ghost function Outcome(sorted: seq<Declared>, order: seq<Declared>, file: File, whole: nat): Resolution {
    var (modules, after) := Asked(order, file);
    Resolved(PayloadIds(file, whole), Map(Flagged(AllUnread(sorted, after).0), modules))
  }

  // ---- when the order does not matter -------------------------------------

  /** Rules that read one name, as every declared one does. */
  predicate Quiet(rules: seq<Registry.Recognition>) { forall rule | rule in rules :: |rule.path| <= 1 }

  lemma {:induction false} QuietReading(file: File, i: nat, path: seq<string>)
    requires i < |file| && |path| <= 1
    ensures Reading(file, i, path) == file
  {
    LeavesThePayloadExactly(path);
    assert Left(file[i].root, path) == file[i].root;
  }

  lemma {:induction false} QuietRule(rule: Registry.Recognition, file: File, i: nat, id: string)
    requires |rule.path| <= 1
    ensures Superseded(rule, file, i).1 == file && Matched(rule, file, i, id).1 == file
    decreases |file| - i
  {
    if i < |file| {
      QuietReading(file, i, rule.path);
      QuietRule(rule, file, i + 1, id);
    }
  }

  lemma {:induction false} QuietClaim(rules: seq<Registry.Recognition>, k: nat, file: File, id: string)
    requires Quiet(rules)
    ensures Claimed(rules, k, file, id).1 == file
    decreases |rules| - k
  {
    if k < |rules| {
      assert rules[k] in rules;
      QuietRule(rules[k], file, 0, id);
      QuietClaim(rules, k + 1, file, id);
    }
  }

  /** Whether a rule takes a payload, as it stands. */
  predicate Fits(rule: Registry.Recognition, p: Payload) {
    && (rule.containers == [] || p.container in rule.containers)
    && match rule
       case Discriminator(_, path, _, values) => In(At(p.root, path), values)
       case Signature(_, _, _, required, legacyOnly) =>
         && !(legacyOnly && HasSpec(p.root))
         && forall key | key in required :: key in p.root && TypeOf(p.root[key]) == Some(required[key])
  }

  /** Whether the file holds a value that outranks a rule. */
  predicate Beaten(rule: Registry.Recognition, file: File) {
    exists i :: 0 <= i < |file| && (rule.containers == [] || file[i].container in rule.containers)
                && In(At(file[i].root, rule.path), rule.supersededBy)
  }

  lemma {:induction false} ShortWalk(root: map<string, Json>, path: seq<string>)
    requires |path| <= 1
    ensures Walk(root, path) == At(root, path)
  {
  }

  lemma {:induction false} SupersededSays(rule: Registry.Recognition, file: File, i: nat)
    requires |rule.path| <= 1 && i <= |file|
    ensures Superseded(rule, file, i).0 <==> Beaten(rule, file[i..])
    decreases |file| - i
  {
    if i < |file| {
      QuietReading(file, i, rule.path);
      ShortWalk(file[i].root, rule.path);
      SupersededSays(rule, file, i + 1);
      hide At;
      var rest := file[i..];
      assert rest[1..] == file[i + 1..] && rest[0] == file[i];
      assert forall k | 0 < k < |rest| :: rest[k] == rest[1..][k - 1];
      assert forall k | 0 <= k < |rest| - 1 :: rest[1..][k] == rest[k + 1];
      if rule.supersededBy != [] && Takes(rule.containers, file[i].container) && In(At(file[i].root, rule.path), rule.supersededBy) {
        assert Beaten(rule, rest);
      }
    }
  }

  lemma {:induction false} MatchedSays(rule: Registry.Recognition, file: File, i: nat, id: string, k: nat)
    requires |rule.path| <= 1 && i <= k <= |file| && (k < |file| ==> Fits(rule, file[k]))
    requires forall j | i <= j < k :: !Fits(rule, file[j])
    ensures Matched(rule, file, i, id).0 ==
      if k == |file| then None
      else Some(if rule.Discriminator? then Claim(file[k].id, Authoritative, id) else Claim(file[k].id, Compatibility, ""))
    decreases |file| - i
  {
    if i < |file| {
      QuietReading(file, i, rule.path);
      ShortWalk(file[i].root, rule.path);
      hide At;
      hide Walk;
      hide HasSpec;
      if !Fits(rule, file[i]) { MatchedSays(rule, file, i + 1, id, k); }
    }
  }

  /** Where every rule reads one name: the first rule that is not outranked and fits
      some payload claims the first payload it fits, with authority exactly where it
      reads a value; and where there is no such rule nothing is claimed. */
  lemma {:induction false} QuietClaimSays(rules: seq<Registry.Recognition>, n: nat, file: File, id: string, k: nat, i: nat)
    requires Quiet(rules) && n <= k <= |rules|
    requires forall m | n <= m < k :: Beaten(rules[m], file) || forall p | p in file :: !Fits(rules[m], p)
    requires k < |rules| ==>
      && !Beaten(rules[k], file) && i < |file| && Fits(rules[k], file[i])
      && forall j | 0 <= j < i :: !Fits(rules[k], file[j])
    ensures Claimed(rules, n, file, id).0 ==
      if k == |rules| then None
      else if rules[k].Discriminator? then Some(Claim(file[i].id, Authoritative, id))
      else Some(Claim(file[i].id, Compatibility, ""))
    decreases |rules| - n
  {
    if n < |rules| {
      assert rules[n] in rules;
      QuietRule(rules[n], file, 0, id);
      SupersededSays(rules[n], file, 0);
      assert file[0..] == file;
      hide Superseded;
      hide Matched;
      hide Beaten;
      hide Fits;
      if n < k {
        if !Beaten(rules[n], file) { MatchedSays(rules[n], file, 0, id, |file|); }
        QuietClaimSays(rules, n + 1, file, id, k, i);
      } else {
        MatchedSays(rules[n], file, 0, id, i);
      }
    }
  }

  /** A module as the file itself shows it. */
  function Alone(file: File): Declared -> Module {
    (m: Declared) =>
      Module(m.id, m.readable, if m.readable then Claimed(m.rules, 0, file, m.id).0 else None, m.specs, false)
  }

  lemma {:induction false} QuietAsked(order: seq<Declared>, file: File)
    requires forall m | m in order :: Quiet(m.rules)
    ensures Asked(order, file) == (Map(Alone(file), order), file)
  {
    hide Quiet;
    hide Claimed;
    if order != [] {
      var m, rest := order[0], order[1..];
      QuietClaim(m.rules, 0, file, m.id);
      QuietAsked(rest, file);
      MapConcat(Alone(file), [m], rest);
      assert order == [m] + rest && Map(Alone(file), [m]) == [Alone(file)(m)];
    }
  }

  /** Where every rule reads one name, a file resolves alike whatever the order the
      modules are asked in. */
  lemma {:induction false} QuietOrderDoesNotMatter(
    sorted: seq<Declared>, s: seq<Declared>, t: seq<Declared>, file: File, whole: nat
  )
    requires multiset(s) == multiset(t) && forall m | m in s :: Quiet(m.rules)
    ensures Outcome(sorted, s, file, whole) == Outcome(sorted, t, file, whole)
  {
    forall m | m in t ensures Quiet(m.rules) { assert m in multiset(s); }
    QuietAsked(s, file);
    QuietAsked(t, file);
    var flag := Flagged(AllUnread(sorted, file).0);
    MapPermuted(Alone(file), s, t);
    MapPermuted(flag, Map(Alone(file), s), Map(Alone(file), t));
    hide Quiet;
    hide Asked;
    hide AllUnread;
    hide Alone;
    OrderDoesNotMatter(PayloadIds(file, whole), Map(flag, Map(Alone(file), s)), Map(flag, Map(Alone(file), t)));
  }

  // ---- when it does -------------------------------------------------------

  function Nested(): Declared {
    Declared("a", true, [Discriminator([], ["data", "spec"], [], ["v9"])], {"a"})
  }

  function Flat(): Declared { Declared("b", true, [Discriminator([], ["spec"], [], ["v2"])], {"b"}) }

  function Inner(): map<string, Json> { map["spec" := JsonString("v2")] }

  function Outer(): map<string, Json> { map["data" := JsonObject(Inner())] }

  function Card(root: map<string, Json>): File { [Payload(0, 0, root)] }

  lemma {:induction false} NestedWalk()
    ensures ValueIn(Card(Outer()), 0, ["data", "spec"]) == Some("v2")
    ensures Reading(Card(Outer()), 0, ["data", "spec"]) == Card(Outer() + Inner())
  {
    var path := ["data", "spec"];
    assert path[1..] == ["spec"];
    assert Walk(Outer(), path) == Walk(Outer() + Inner(), path[1..]);
    assert Left(Outer(), path) == Left(Outer() + Inner(), path[1..]);
  }

  lemma {:induction false} NestedClaims()
    ensures Claimed(Nested().rules, 0, Card(Outer()), "a") == (None, Card(Outer() + Inner()))
  {
    var rule, file := Nested().rules[0], Card(Outer());
    NestedWalk();
    hide ValueIn;
    hide Reading;
    assert Superseded(rule, file, 0) == (false, file);
    assert Matched(rule, Card(Outer() + Inner()), 1, "a") == (None, Card(Outer() + Inner()));
    assert Matched(rule, file, 0, "a") == (None, Card(Outer() + Inner()));
  }

  lemma {:induction false} FlatClaims(root: map<string, Json>)
    ensures Claimed(Flat().rules, 0, Card(root), "b") ==
      (if "spec" in root && Scalar(root["spec"]) == Some("v2") then Some(Claim(0, Authoritative, "b")) else None, Card(root))
  {
    var rule, file := Flat().rules[0], Card(root);
    QuietReading(file, 0, ["spec"]);
    assert ValueIn(file, 0, ["spec"]) == if "spec" in root then Scalar(root["spec"]) else None;
    hide ValueIn;
    hide Reading;
    assert Superseded(rule, file, 0) == (false, file);
    assert Matched(rule, file, 1, "b") == (None, file);
  }

  function Silent(m: Declared): Module { Module(m.id, m.readable, None, m.specs, false) }

  function Claiming(m: Declared): Module {
    Module(m.id, m.readable, Some(Claim(0, Authoritative, m.id)), m.specs, false)
  }

  lemma {:induction false} AskedTwo(a: Declared, b: Declared, file: File)
    requires a.readable && b.readable
    ensures var first := Claimed(a.rules, 0, file, a.id);
      var second := Claimed(b.rules, 0, first.1, b.id);
      Asked([a, b], file) ==
        ([Module(a.id, true, first.0, a.specs, false), Module(b.id, true, second.0, b.specs, false)], second.1)
  {
    hide Claimed;
    var first := Claimed(a.rules, 0, file, a.id);
    var second := Claimed(b.rules, 0, first.1, b.id);
    var order, rest := [a, b], [b];
    assert order[1..] == rest && rest[1..] == [];
    assert Asked([], second.1) == ([], second.1);
    var one := Module(b.id, true, second.0, b.specs, false);
    assert Asked(rest, first.1).0 == [one] + Asked([], second.1).0 == [one];
    assert Asked(rest, first.1).1 == second.1;
    var head := Module(a.id, true, first.0, a.specs, false);
    assert Asked(order, file).0 == [head] + Asked(rest, first.1).0 == [head, one];
    assert Asked(order, file).1 == second.1;
  }

  /** Asked first, the module with the nested rule claims nothing, but what its walk
      writes lets the other module claim the file; asked second, nobody does. */
  lemma {:induction false} NestedOrderMatters()
    ensures Outcome([Nested(), Flat()], [Nested(), Flat()], Card(Outer()), 1) == Winner("b", Claim(0, Authoritative, "b"))
    ensures !Outcome([Nested(), Flat()], [Flat(), Nested()], Card(Outer()), 1).Winner?
  {
    NestedClaims();
    FlatClaims(Outer() + Inner());
    FlatClaims(Outer());
    assert (Outer() + Inner())["spec"] == JsonString("v2") && "spec" !in Outer();
    AskedTwo(Nested(), Flat(), Card(Outer()));
    AskedTwo(Flat(), Nested(), Card(Outer()));
    assert Nested() == Declared("a", true, Nested().rules, {"a"}) && Flat() == Declared("b", true, Flat().rules, {"b"});
    hide Claimed;
    hide Outer;
    hide Nested;
    hide Flat;
    hide AllUnread;
    assert Asked([Nested(), Flat()], Card(Outer())).0 == [Silent(Nested()), Claiming(Flat())];
    assert Asked([Flat(), Nested()], Card(Outer())).0 == [Silent(Flat()), Silent(Nested())];
    hide Asked;
    OneWins([Nested(), Flat()], [Nested(), Flat()], Card(Outer()));
    NoneWins([Nested(), Flat()], [Flat(), Nested()], Card(Outer()));
  }

  lemma {:induction false} OneWins(sorted: seq<Declared>, order: seq<Declared>, file: File)
    requires |order| == 2 && order[1].readable && order[1].id in order[1].specs && (exists p :: p in file && p.id == 0)
    requires Asked(order, file).0 == [Silent(order[0]), Claiming(order[1])]
    ensures Outcome(sorted, order, file, 1) == Winner(order[1].id, Claim(0, Authoritative, order[1].id))
  {
    var flag := Flagged(AllUnread(sorted, Asked(order, file).1).0);
    var modules := Map(flag, [Silent(order[0]), Claiming(order[1])]);
    assert modules[0].claim == None && modules[1] == flag(Claiming(order[1]));
    assert !Misclaims(PayloadIds(file, 1), modules[0]) && !Misclaims(PayloadIds(file, 1), modules[1]);
    assert StandsAlone(modules, 1);
    hide Resolved;
    StandsAloneWins(PayloadIds(file, 1), modules, 1);
  }

  lemma {:induction false} NoneWins(sorted: seq<Declared>, order: seq<Declared>, file: File)
    requires |order| == 2 && Asked(order, file).0 == [Silent(order[0]), Silent(order[1])]
    ensures !Outcome(sorted, order, file, 1).Winner?
  {
    var flag := Flagged(AllUnread(sorted, Asked(order, file).1).0);
    var modules := Map(flag, [Silent(order[0]), Silent(order[1])]);
    assert modules[0].claim == None && modules[1].claim == None;
    hide Resolved;
    WinnersStandAlone(PayloadIds(file, 1), modules);
  }
}
