/** Which format module a file belongs to, and which signatures may stand side by
    side. */
module Registry {
  import opened Payloads
  import opened Sequences
  import opened Sorting

  // ---- signatures ---------------------------------------------------------

  type Container = nat

  /** Declared evidence that a payload belongs to a format: a value at a path, or
      keys of certain types. A value in `supersededBy` at the path outranks it. */
  datatype Recognition =
    | Discriminator(
        containers: seq<Container>, path: seq<string>, supersededBy: seq<string>, values: seq<string>)
    | Signature(
        containers: seq<Container>, path: seq<string>, supersededBy: seq<string>,
        required: map<string, ValueType>, legacyOnly: bool)

  /** A signature for every container, outranked by nothing. */
  function Shape(required: map<string, ValueType>): Recognition { Signature([], [], [], required, false) }

  predicate SignatureMatches(root: map<string, Json>, required: map<string, ValueType>) {
    forall key | key in required :: key in root && TypeOf(root[key]) == Some(required[key])
  }

  predicate Shadows(looser: map<string, ValueType>, stricter: map<string, ValueType>) {
    forall key | key in looser :: key in stricter && stricter[key] == looser[key]
  }

  method CheckSignature(root: map<string, Json>, required: map<string, ValueType>) returns (matches: bool)
    ensures matches == SignatureMatches(root, required)
  {
    var left := required.Keys;
    while left != {}
      invariant left <= required.Keys
      invariant forall key | key in required && key !in left :: key in root && TypeOf(root[key]) == Some(required[key])
      decreases left
    {
      var key :| key in left;
      left := left - {key};
      if key !in root || TypeOf(root[key]) != Some(required[key]) { return false; }
    }
    return true;
  }

  method CheckShadows(looser: map<string, ValueType>, stricter: map<string, ValueType>) returns (shadows: bool)
    ensures shadows == Shadows(looser, stricter)
  {
    var left := looser.Keys;
    while left != {}
      invariant left <= looser.Keys
      invariant forall key | key in looser && key !in left :: key in stricter && stricter[key] == looser[key]
      decreases left
    {
      var key :| key in left;
      left := left - {key};
      if key !in stricter || stricter[key] != looser[key] { return false; }
    }
    return true;
  }

  function ValueOf(wanted: ValueType): Json {
    match wanted
    case StringValue => JsonString("")
    case NumberValue => JsonNumber("0")
    case BooleanValue => JsonBoolean(true)
    case ArrayValue => JsonArray([])
    case ObjectValue => JsonObject(map[])
  }

  /** The least payload a signature matches: its keys and nothing more. */
  function Least(required: map<string, ValueType>): map<string, Json> {
    map key | key in required :: ValueOf(required[key])
  }

  ghost predicate Contained(stricter: map<string, ValueType>, looser: map<string, ValueType>) {
    forall root | SignatureMatches(root, stricter) :: SignatureMatches(root, looser)
  }

  /** One signature shadows another exactly when it matches every payload the
      other does. */
  lemma {:induction false} ShadowsIffContained(looser: map<string, ValueType>, stricter: map<string, ValueType>)
    ensures Shadows(looser, stricter) <==> Contained(stricter, looser)
  {
    var least := Least(stricter);
    assert SignatureMatches(least, stricter);
    if Contained(stricter, looser) {
      assert SignatureMatches(least, looser);
      forall key | key in looser ensures key in stricter && stricter[key] == looser[key] {
        assert key in least && TypeOf(ValueOf(stricter[key])) == Some(stricter[key]);
      }
    }
  }

  predicate Incompatible(first: seq<Container>, second: seq<Container>) {
    first != [] && second != [] && forall c | c in first :: c !in second
  }

  method CheckIncompatible(first: seq<Container>, second: seq<Container>) returns (incompatible: bool)
    ensures incompatible == Incompatible(first, second)
  {
    if |first| == 0 || |second| == 0 { return false; }
    for i := 0 to |first|
      invariant forall c | c in first[..i] :: c !in second
    {
      assert first[i] in first;
      if first[i] in second { return false; }
    }
    assert first[..|first|] == first;
    return true;
  }

  predicate Takes(containers: seq<Container>, c: Container) { containers == [] || c in containers }

  ghost predicate Clash(a: Recognition, b: Recognition) {
    && a.Signature? && b.Signature? && !Incompatible(a.containers, b.containers)
    && (Shadows(a.required, b.required) || Shadows(b.required, a.required))
  }

  ghost predicate Overlap(first: seq<Recognition>, second: seq<Recognition>) {
    exists i, j :: 0 <= i < |first| && 0 <= j < |second| && Clash(first[i], second[j])
  }

  method SignaturesOverlap(first: seq<Recognition>, second: seq<Recognition>) returns (overlap: bool)
    ensures overlap == Overlap(first, second)
  {
    for i := 0 to |first|
      invariant forall k, j | 0 <= k < i && 0 <= j < |second| :: !Clash(first[k], second[j])
    {
      var a := first[i];
      if !a.Signature? { continue; }
      for j := 0 to |second|
        invariant forall l | 0 <= l < j :: !Clash(a, second[l])
      {
        var b := second[j];
        if !b.Signature? { continue; }
        var incompatible := CheckIncompatible(a.containers, b.containers);
        if incompatible { continue; }
        var one := CheckShadows(a.required, b.required);
        var other := CheckShadows(b.required, a.required);
        if one || other {
          assert Clash(first[i], second[j]);
          return true;
        }
      }
    }
    return false;
  }

  /** Two modules are refused exactly when some container both take could hold
      payloads of one signature that are all payloads of another's. */
  lemma {:induction false} OverlapExactly(first: seq<Recognition>, second: seq<Recognition>)
    ensures Overlap(first, second) <==>
      exists i, j :: 0 <= i < |first| && 0 <= j < |second| && first[i].Signature? && second[j].Signature?
        && (exists c :: Takes(first[i].containers, c) && Takes(second[j].containers, c))
        && (Contained(second[j].required, first[i].required) || Contained(first[i].required, second[j].required))
  {
    forall i, j | 0 <= i < |first| && 0 <= j < |second| && first[i].Signature? && second[j].Signature?
      ensures Clash(first[i], second[j]) <==>
        (exists c :: Takes(first[i].containers, c) && Takes(second[j].containers, c))
        && (Contained(second[j].required, first[i].required) || Contained(first[i].required, second[j].required))
    {
      ShadowsIffContained(first[i].required, second[j].required);
      ShadowsIffContained(second[j].required, first[i].required);
      CommonContainer(first[i].containers, second[j].containers);
    }
    hide Contained;
    hide Shadows;
    hide Takes;
    hide Incompatible;
  }

  lemma {:induction false} CommonContainer(first: seq<Container>, second: seq<Container>)
    ensures !Incompatible(first, second) <==> exists c :: Takes(first, c) && Takes(second, c)
  {
    if !Incompatible(first, second) {
      if first == [] && second == [] {
        assert Takes(first, 0) && Takes(second, 0);
      } else if first == [] {
        assert second[0] in second && Takes(first, second[0]) && Takes(second, second[0]);
      } else if second == [] {
        assert first[0] in first && Takes(first, first[0]) && Takes(second, first[0]);
      } else {
        var c :| c in first && c in second;
        assert Takes(first, c) && Takes(second, c);
      }
    }
  }

  /** Two modules whose declarations overlap, if any two do. */
  method FindOverlap(declared: seq<seq<Recognition>>) returns (pair: Option<(nat, nat)>)
    ensures pair.Some? ==>
      pair.value.0 < pair.value.1 < |declared| && Overlap(declared[pair.value.0], declared[pair.value.1])
    ensures pair.None? ==> forall i, j | 0 <= i < j < |declared| :: !Overlap(declared[i], declared[j])
  {
    for i := 0 to |declared|
      invariant forall k, j | 0 <= k < i && k < j < |declared| :: !Overlap(declared[k], declared[j])
    {
      for j := i + 1 to |declared|
        invariant forall l | i < l < j :: !Overlap(declared[i], declared[l])
      {
        var overlap := SignaturesOverlap(declared[i], declared[j]);
        if overlap { return Some((i, j)); }
      }
    }
    return None;
  }

  /** The keys two signatures share are typed alike. */
  predicate Agree(a: map<string, ValueType>, b: map<string, ValueType>) {
    forall key | key in a && key in b :: a[key] == b[key]
  }

  /** Some payload matches two signatures exactly when they agree on the keys they
      share; it need not be that one shadows the other. */
  lemma {:induction false} SharedPayloadExactly(a: map<string, ValueType>, b: map<string, ValueType>)
    ensures (exists root :: SignatureMatches(root, a) && SignatureMatches(root, b)) <==> Agree(a, b)
  {
    if Agree(a, b) {
      var root := Least(a + b);
      assert SignatureMatches(root, a) && SignatureMatches(root, b);
    }
    if root :| SignatureMatches(root, a) && SignatureMatches(root, b) {
      forall key | key in a && key in b ensures a[key] == b[key] {
        assert TypeOf(root[key]) == Some(a[key]) && TypeOf(root[key]) == Some(b[key]);
      }
    }
  }

  lemma {:induction false} ApartIsNoOverlap(a: map<string, ValueType>, b: map<string, ValueType>)
    requires !Shadows(a, b) && !Shadows(b, a)
    ensures !Overlap([Shape(a)], [Shape(b)])
  {
    hide Shadows;
    var first, second := [Shape(a)], [Shape(b)];
    forall i, j | 0 <= i < |first| && 0 <= j < |second| ensures !Clash(first[i], second[j]) {
      assert first[i] == Shape(a) && second[j] == Shape(b);
    }
  }

  /** Declarations that pass the check may still both match one payload. */
  lemma {:induction false} CheckedModulesMayMeet() returns (root: map<string, Json>)
    ensures SignatureMatches(root, map["a" := StringValue]) && SignatureMatches(root, map["b" := StringValue])
    ensures !Overlap([Shape(map["a" := StringValue])], [Shape(map["b" := StringValue])])
  {
    var a, b := map["a" := StringValue], map["b" := StringValue];
    assert "a" in a && "a" !in b && "b" in b && "b" !in a;
    ApartIsNoOverlap(a, b);
    root := map["a" := JsonString(""), "b" := JsonString("")];
    hide Overlap;
  }

  // ---- resolution ---------------------------------------------------------

  datatype Strength = Compatibility | Authoritative | OtherStrength

  datatype Claim = Claim(payload: nat, strength: Strength, format: string)

  /** A module as one file meets it: what it claims, the specs it owns, and
      whether one of its discriminators stands in the file with a value it cannot
      read. */
  datatype Module = Module(id: string, readable: bool, claim: Option<Claim>, specs: set<string>, unread: bool)

  datatype Resolution =
    | Winner(id: string, claim: Claim) | NoMatch | UnsupportedFormat | InvalidClaim | Conflicting | Ambiguous

  predicate ClaimValid(payloads: set<nat>, m: Module)
    requires m.claim.Some?
  {
    var claim := m.claim.value;
    && claim.strength != OtherStrength && claim.payload in payloads
    && (claim.strength == Authoritative ==> claim.format in m.specs)
    && (claim.strength == Compatibility ==> claim.format == "")
  }

  predicate Claims(m: Module) { m.readable && m.claim.Some? }

  predicate Misclaims(payloads: set<nat>, m: Module) { Claims(m) && !ClaimValid(payloads, m) }

  predicate IsAuthoritative(m: Module) { Claims(m) && m.claim.value.strength == Authoritative }

  function OwnsPayload(payload: nat): Module -> bool {
    (m: Module) => IsAuthoritative(m) && m.claim.value.payload == payload
  }

  ghost predicate HasConflict(candidates: seq<Module>) {
    exists payload :: |Filter(OwnsPayload(payload), candidates)| > 1
  }

  function Strongest(candidates: seq<Module>): Strength {
    if exists i :: 0 <= i < |candidates| && IsAuthoritative(candidates[i]) then Authoritative else Compatibility
  }

  function OfStrength(strength: Strength): Module -> bool {
    (m: Module) => Claims(m) && m.claim.value.strength == strength
  }

  predicate Unsupported(modules: seq<Module>) {
    exists i :: 0 <= i < |modules| && modules[i].unread
  }

  ghost function Resolved(payloads: set<nat>, modules: seq<Module>): Resolution {
    var candidates := Filter(Claims, modules);
    if exists i :: 0 <= i < |modules| && Misclaims(payloads, modules[i]) then InvalidClaim
    else if candidates == [] then (if Unsupported(modules) then UnsupportedFormat else NoMatch)
    else if HasConflict(candidates) then Conflicting
    else
      var winners := Filter(OfStrength(Strongest(candidates)), candidates);
      if |winners| != 1 then Ambiguous
      else
        assert winners[0] in winners;
        Winner(winners[0].id, winners[0].claim.value)
  }

  method CheckConflicts(candidates: seq<Module>) returns (conflict: bool)
    requires forall m | m in candidates :: Claims(m)
    ensures conflict == HasConflict(candidates)
  {
    for i := 0 to |candidates|
      invariant forall k, j | 0 <= k < i && k < j < |candidates| && IsAuthoritative(candidates[k]) && IsAuthoritative(candidates[j]) ::
        candidates[j].claim.value.payload != candidates[k].claim.value.payload
    {
      assert candidates[i] in candidates;
      var first := candidates[i].claim.value;
      if first.strength != Authoritative { continue; }
      for j := i + 1 to |candidates|
        invariant forall l | i < l < j && IsAuthoritative(candidates[l]) ::
          candidates[l].claim.value.payload != first.payload
      {
        assert candidates[j] in candidates;
        var second := candidates[j].claim.value;
        if second.strength == Authoritative && second.payload == first.payload {
          FilterTwo(OwnsPayload(first.payload), candidates, i, j);
          return true;
        }
      }
    }
    forall payload ensures |Filter(OwnsPayload(payload), candidates)| <= 1 {
      FilterOnce(OwnsPayload(payload), candidates);
    }
    return false;
  }

  method FindStrongest(candidates: seq<Module>) returns (strongest: Strength)
    requires candidates != [] && forall m | m in candidates :: Claims(m) && m.claim.value.strength != OtherStrength
    ensures strongest == Strongest(candidates)
  {
    assert candidates[0] in candidates;
    strongest := candidates[0].claim.value.strength;
    for i := 1 to |candidates|
      invariant strongest == Authoritative || strongest == Compatibility
      invariant strongest == Authoritative <==> exists k :: 0 <= k < i && IsAuthoritative(candidates[k])
    {
      assert candidates[i] in candidates;
      if candidates[i].claim.value.strength == Authoritative {
        assert IsAuthoritative(candidates[i]);
        strongest := Authoritative;
      }
    }
  }

  method WinnersOf(candidates: seq<Module>, strongest: Strength) returns (winners: seq<Module>)
    requires forall m | m in candidates :: Claims(m)
    ensures winners == Filter(OfStrength(strongest), candidates)
  {
    winners := [];
    for i := 0 to |candidates|
      invariant winners == Filter(OfStrength(strongest), candidates[..i])
    {
      assert candidates[..i + 1] == candidates[..i] + [candidates[i]] && candidates[i] in candidates;
      FilterConcat(OfStrength(strongest), candidates[..i], [candidates[i]]);
      FilterSingle(OfStrength(strongest), candidates[i]);
      if candidates[i].claim.value.strength == strongest { winners := winners + [candidates[i]]; }
    }
    assert candidates[..|candidates|] == candidates;
  }

  /** Gathers the valid claims, or stops at the first invalid one. */
  method Gather(payloads: set<nat>, modules: seq<Module>) returns (candidates: Option<seq<Module>>)
    ensures candidates.None? <==> exists i :: 0 <= i < |modules| && Misclaims(payloads, modules[i])
    ensures candidates.Some? ==> candidates.value == Filter(Claims, modules)
  {
    var gathered: seq<Module> := [];
    for i := 0 to |modules|
      invariant gathered == Filter(Claims, modules[..i])
      invariant forall k | 0 <= k < i :: !Misclaims(payloads, modules[k])
    {
      assert modules[..i + 1] == modules[..i] + [modules[i]];
      FilterConcat(Claims, modules[..i], [modules[i]]);
      FilterSingle(Claims, modules[i]);
      if !modules[i].readable { continue; }
      if modules[i].claim.None? { continue; }
      if !ClaimValid(payloads, modules[i]) {
        assert Misclaims(payloads, modules[i]);
        return None;
      }
      gathered := gathered + [modules[i]];
    }
    assert modules[..|modules|] == modules;
    return Some(gathered);
  }

  /** Resolves a file against the modules, in whatever order they come. */
  method Resolve(payloads: set<nat>, modules: seq<Module>) returns (resolution: Resolution)
    ensures resolution == Resolved(payloads, modules)
  {
    var gathered := Gather(payloads, modules);
    if gathered.None? { return InvalidClaim; }
    var candidates := gathered.value;
    if |candidates| == 0 { return if Unsupported(modules) then UnsupportedFormat else NoMatch; }
    forall m | m in candidates ensures Claims(m) && m.claim.value.strength != OtherStrength {
      var i :| 0 <= i < |modules| && modules[i] == m;
      assert !Misclaims(payloads, modules[i]);
    }
    hide Filter;
    var conflict := CheckConflicts(candidates);
    if conflict { return Conflicting; }
    var strongest := FindStrongest(candidates);
    var winners := WinnersOf(candidates, strongest);
    if |winners| != 1 { return Ambiguous; }
    return Winner(winners[0].id, winners[0].claim.value);
  }

  // ---- order does not matter ----------------------------------------------

  lemma {:induction false} FilterCount<T>(keep: T -> bool, s: seq<T>, t: seq<T>)
    requires multiset(s) == multiset(t)
    ensures |Filter(keep, s)| == |Filter(keep, t)|
  {
    FilterPermuted(keep, s, t);
    assert |multiset(Filter(keep, s))| == |Filter(keep, s)|;
    assert |multiset(Filter(keep, t))| == |Filter(keep, t)|;
  }

  lemma {:induction false} StrongestPermuted(s: seq<Module>, t: seq<Module>)
    requires multiset(s) == multiset(t)
    ensures Strongest(s) == Strongest(t)
  {
    if i :| 0 <= i < |s| && IsAuthoritative(s[i]) {
      assert s[i] in multiset(t);
      var j :| 0 <= j < |t| && t[j] == s[i];
    }
    if j :| 0 <= j < |t| && IsAuthoritative(t[j]) {
      assert t[j] in multiset(s);
      var i :| 0 <= i < |s| && s[i] == t[j];
    }
  }

  lemma {:induction false} UnsupportedPermuted(s: seq<Module>, t: seq<Module>)
    requires multiset(s) == multiset(t)
    ensures Unsupported(s) == Unsupported(t)
  {
    if i :| 0 <= i < |s| && s[i].unread {
      assert s[i] in multiset(t);
      var j :| 0 <= j < |t| && t[j] == s[i];
    }
    if j :| 0 <= j < |t| && t[j].unread {
      assert t[j] in multiset(s);
      var i :| 0 <= i < |s| && s[i] == t[j];
    }
  }

  lemma {:induction false} MisclaimPermuted(payloads: set<nat>, s: seq<Module>, t: seq<Module>)
    requires multiset(s) == multiset(t)
    ensures (exists i :: 0 <= i < |s| && Misclaims(payloads, s[i])) ==> exists j :: 0 <= j < |t| && Misclaims(payloads, t[j])
  {
    if i :| 0 <= i < |s| && Misclaims(payloads, s[i]) {
      assert s[i] in multiset(t);
      var j :| 0 <= j < |t| && t[j] == s[i];
    }
  }

  lemma {:induction false} ConflictPermuted(s: seq<Module>, t: seq<Module>)
    requires multiset(s) == multiset(t)
    ensures HasConflict(s) == HasConflict(t)
  {
    forall payload ensures |Filter(OwnsPayload(payload), s)| == |Filter(OwnsPayload(payload), t)| {
      FilterCount(OwnsPayload(payload), s, t);
    }
    hide Filter;
    hide OwnsPayload;
  }

  /** The claims left after weighing, in any order: as many, and the same one when
      there is one. */
  lemma {:induction false} WinnersPermuted(strength: Strength, s: seq<Module>, t: seq<Module>)
    requires multiset(s) == multiset(t)
    ensures |Filter(OfStrength(strength), s)| == |Filter(OfStrength(strength), t)|
    ensures |Filter(OfStrength(strength), s)| == 1 ==> Filter(OfStrength(strength), s) == Filter(OfStrength(strength), t)
  {
    var v, w := Filter(OfStrength(strength), s), Filter(OfStrength(strength), t);
    FilterPermuted(OfStrength(strength), s, t);
    FilterCount(OfStrength(strength), s, t);
    if |v| == 1 {
      assert v == [v[0]] && w == [w[0]];
      assert w[0] in multiset(v);
    }
    hide Filter;
  }

  lemma {:induction false} ClaimsPermuted(s: seq<Module>, t: seq<Module>)
    requires multiset(s) == multiset(t)
    ensures var a, b := Filter(Claims, s), Filter(Claims, t);
      multiset(a) == multiset(b) && |a| == |b|
  {
    FilterPermuted(Claims, s, t);
    FilterCount(Claims, s, t);
  }

  /** The same modules in any order give the same answer. */
  lemma {:induction false} OrderDoesNotMatter(payloads: set<nat>, s: seq<Module>, t: seq<Module>)
    requires multiset(s) == multiset(t)
    ensures Resolved(payloads, s) == Resolved(payloads, t)
  {
    hide Filter;
    hide Strongest;
    hide Misclaims;
    hide Unsupported;
    hide HasConflict;
    MisclaimPermuted(payloads, s, t);
    MisclaimPermuted(payloads, t, s);
    UnsupportedPermuted(s, t);
    ClaimsPermuted(s, t);
    var a, b := Filter(Claims, s), Filter(Claims, t);
    StrongestPermuted(a, b);
    ConflictPermuted(a, b);
    WinnersPermuted(Strongest(a), a, b);
  }

  ghost predicate StandsAlone(modules: seq<Module>, i: nat)
    requires i < |modules|
  {
    && Claims(modules[i])
    && (forall j | 0 <= j < |modules| && j != i && Claims(modules[j]) ::
          modules[i].claim.value.strength == Authoritative && modules[j].claim.value.strength == Compatibility)
  }

  lemma {:induction false} WinnerStandsAlone(payloads: set<nat>, modules: seq<Module>) returns (i: nat)
    requires Resolved(payloads, modules).Winner?
    ensures i < |modules| && StandsAlone(modules, i)
  {
    var candidates := Filter(Claims, modules);
    var strongest := Strongest(candidates);
    var winners := Filter(OfStrength(strongest), candidates);
    assert winners[0] in winners && winners[0] in candidates;
    i :| 0 <= i < |modules| && modules[i] == winners[0];
    forall j | 0 <= j < |modules| && j != i && Claims(modules[j])
      ensures modules[i].claim.value.strength == Authoritative && modules[j].claim.value.strength == Compatibility
    {
      FilterHas(Claims, modules);
      assert modules[j] in candidates && !Misclaims(payloads, modules[j]) && !Misclaims(payloads, modules[i]);
      OthersAreWeaker(modules, i, j, strongest);
      if IsAuthoritative(modules[j]) { StrongestIs(candidates, modules[j]); }
    }
  }

  lemma {:induction false} OthersAreWeaker(modules: seq<Module>, i: nat, j: nat, strength: Strength)
    requires i < |modules| && j < |modules| && i != j && OfStrength(strength)(modules[i])
    requires |Filter(OfStrength(strength), Filter(Claims, modules))| <= 1
    ensures !OfStrength(strength)(modules[j])
  {
    if OfStrength(strength)(modules[j]) {
      TwoOfStrength(modules, if i < j then i else j, if i < j then j else i, strength);
    }
  }

  lemma {:induction false} StrongestIs(candidates: seq<Module>, m: Module)
    requires m in candidates && IsAuthoritative(m)
    ensures Strongest(candidates) == Authoritative
  {
    var k :| 0 <= k < |candidates| && candidates[k] == m;
  }

  lemma {:induction false} OnlyOne(modules: seq<Module>, keep: Module -> bool, i: nat)
    requires i < |modules| && forall m | keep(m) :: Claims(m)
    requires forall j | 0 <= j < |modules| && j != i :: !keep(modules[j])
    ensures Filter(keep, Filter(Claims, modules)) == if keep(modules[i]) then [modules[i]] else []
  {
    FilterFilter(Claims, keep, modules);
    FilterOnce(keep, modules);
    FilterHas(keep, modules);
    var kept := Filter(keep, modules);
    if kept != [] {
      assert kept[0] in kept;
    }
  }

  lemma {:induction false} StandsAloneWins(payloads: set<nat>, modules: seq<Module>, i: nat)
    requires i < |modules| && StandsAlone(modules, i)
    requires forall j | 0 <= j < |modules| :: !Misclaims(payloads, modules[j])
    ensures Resolved(payloads, modules) == Winner(modules[i].id, modules[i].claim.value)
  {
    var candidates := Filter(Claims, modules);
    FilterHas(Claims, modules);
    assert modules[i] in candidates;
    var k :| 0 <= k < |candidates| && candidates[k] == modules[i];
    assert !Misclaims(payloads, modules[i]);
    assert Strongest(candidates) == modules[i].claim.value.strength by {
      assert IsAuthoritative(candidates[k]) == IsAuthoritative(modules[i]);
      forall l | 0 <= l < |candidates| ensures IsAuthoritative(candidates[l]) ==> IsAuthoritative(modules[i]) {
        assert candidates[l] in candidates;
        var j :| 0 <= j < |modules| && modules[j] == candidates[l];
      }
    }
    forall payload ensures |Filter(OwnsPayload(payload), candidates)| <= 1 {
      OnlyOne(modules, OwnsPayload(payload), i);
    }
    OnlyOne(modules, OfStrength(Strongest(candidates)), i);
    hide Filter;
    hide Strongest;
  }

  /** A file is recognised exactly when every claim on it is valid and one claim
      is strictly stronger than all the others, and then that claim is taken. */
  lemma {:induction false} WinnersStandAlone(payloads: set<nat>, modules: seq<Module>)
    ensures Resolved(payloads, modules).Winner? <==>
      (forall j | 0 <= j < |modules| :: !Misclaims(payloads, modules[j]))
        && (exists i :: 0 <= i < |modules| && StandsAlone(modules, i))
    ensures forall i | 0 <= i < |modules| && StandsAlone(modules, i) && Resolved(payloads, modules).Winner? ::
      Resolved(payloads, modules) == Winner(modules[i].id, modules[i].claim.value)
  {
    if Resolved(payloads, modules).Winner? {
      var i := WinnerStandsAlone(payloads, modules);
    }
    hide StandsAlone;
    if forall j | 0 <= j < |modules| :: !Misclaims(payloads, modules[j]) {
      forall i | 0 <= i < |modules| && StandsAlone(modules, i)
        ensures Resolved(payloads, modules) == Winner(modules[i].id, modules[i].claim.value)
      {
        StandsAloneWins(payloads, modules, i);
      }
    }
    hide Filter;
  }

  lemma {:induction false} TwoOfStrength(modules: seq<Module>, i: nat, j: nat, strength: Strength)
    requires i < j < |modules| && OfStrength(strength)(modules[i]) && OfStrength(strength)(modules[j])
    ensures |Filter(OfStrength(strength), Filter(Claims, modules))| > 1
  {
    FilterTwo(OfStrength(strength), modules, i, j);
    FilterFilter(Claims, OfStrength(strength), modules);
  }

  // ---- every other answer -------------------------------------------------

  /** A claim a module may make: on a payload of the file, and naming a format exactly
      where it is authoritative, one of the module's own. */
  predicate Proper(payloads: set<nat>, m: Module, claim: Claim) {
    && claim.payload in payloads
    && match claim.strength
       case Authoritative => claim.format in m.specs
       case Compatibility => claim.format == ""
       case OtherStrength => false
  }

  /** Two modules that both own one payload. */
  predicate Rivals(a: Module, b: Module) {
    && Claims(a) && Claims(b) && a.claim.value.strength == Authoritative && b.claim.value.strength == Authoritative
    && a.claim.value.payload == b.claim.value.payload
  }

  lemma {:induction false} ConflictIsRivals(modules: seq<Module>)
    ensures HasConflict(Filter(Claims, modules)) <==>
      exists i, j :: 0 <= i < j < |modules| && Rivals(modules[i], modules[j])
  {
    forall payload ensures Filter(OwnsPayload(payload), Filter(Claims, modules)) == Filter(OwnsPayload(payload), modules) {
      FilterFilter(Claims, OwnsPayload(payload), modules);
    }
    if HasConflict(Filter(Claims, modules)) {
      var payload :| |Filter(OwnsPayload(payload), Filter(Claims, modules))| > 1;
      if forall i, j | 0 <= i < j < |modules| :: !Rivals(modules[i], modules[j]) {
        FilterOnce(OwnsPayload(payload), modules);
        assert false;
      }
    }
    hide Filter;
    forall i, j | 0 <= i < j < |modules| && Rivals(modules[i], modules[j]) ensures HasConflict(Filter(Claims, modules)) {
      FilterTwo(OwnsPayload(modules[i].claim.value.payload), modules, i, j);
      assert |Filter(OwnsPayload(modules[i].claim.value.payload), Filter(Claims, modules))| > 1;
    }
  }

  ghost predicate AnyImproper(payloads: set<nat>, modules: seq<Module>) {
    exists i :: 0 <= i < |modules| && Claims(modules[i]) && !Proper(payloads, modules[i], modules[i].claim.value)
  }

  ghost predicate AnyRivals(modules: seq<Module>) {
    exists i, j :: 0 <= i < j < |modules| && Rivals(modules[i], modules[j])
  }

  ghost predicate AnyClaim(modules: seq<Module>) { exists m :: m in modules && Claims(m) }

  lemma {:induction false} MisclaimIsImproper(payloads: set<nat>, modules: seq<Module>)
    ensures AnyImproper(payloads, modules) <==> exists i :: 0 <= i < |modules| && Misclaims(payloads, modules[i])
  {
  }

  lemma {:induction false} CandidatesAre(modules: seq<Module>)
    ensures Filter(Claims, modules) == [] <==> !AnyClaim(modules)
  {
    FilterHas(Claims, modules);
    var candidates := Filter(Claims, modules);
    hide Filter;
    if candidates != [] { assert candidates[0] in candidates; }
  }

  /** Every answer but recognition, in terms of the modules alone: an improper claim
      fails the file; unclaimed it is unsupported exactly where a module read of its
      own and could not; two owners of a payload conflict; and what is left is
      ambiguous exactly where nobody stands alone. */
  lemma {:induction false} ResolutionSays(payloads: set<nat>, modules: seq<Module>)
    ensures var r := Resolved(payloads, modules);
      && (r == InvalidClaim <==> AnyImproper(payloads, modules))
      && (r == UnsupportedFormat <==> !AnyClaim(modules) && exists i :: 0 <= i < |modules| && modules[i].unread)
      && (r == NoMatch <==> !AnyClaim(modules) && forall i | 0 <= i < |modules| :: !modules[i].unread)
      && (r == Conflicting <==> !AnyImproper(payloads, modules) && AnyRivals(modules))
      && (r == Ambiguous <==>
            !AnyImproper(payloads, modules) && !AnyRivals(modules) && AnyClaim(modules)
            && forall i | 0 <= i < |modules| :: !StandsAlone(modules, i))
  {
    WinnersStandAlone(payloads, modules);
    ConflictIsRivals(modules);
    MisclaimIsImproper(payloads, modules);
    CandidatesAre(modules);
    if AnyImproper(payloads, modules) {
      var i :| 0 <= i < |modules| && Claims(modules[i]) && !Proper(payloads, modules[i], modules[i].claim.value);
      assert AnyClaim(modules);
    }
    if AnyRivals(modules) {
      var i, j :| 0 <= i < j < |modules| && Rivals(modules[i], modules[j]);
      assert AnyClaim(modules);
    }
    if exists i :: 0 <= i < |modules| && StandsAlone(modules, i) {
      var i :| 0 <= i < |modules| && StandsAlone(modules, i);
      assert AnyClaim(modules);
    }
    hide Filter;
    hide HasConflict;
    hide StandsAlone;
    hide Rivals;
    hide Misclaims;
    hide Proper;
    hide AnyClaim;
  }
}
