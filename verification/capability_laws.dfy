/** What the offered formats mean, and that they do not depend on page order. */
module CapabilityLaws {
  import opened Sequences
  import opened Blocks
  import opened Catalog
  import opened Sorting
  import opened PageRules
  import opened Capability

  // ---- one report ---------------------------------------------------------

  function HasContent(subject: Subject): Role -> bool {
    (role: Role) => Written(subject.elements, role) != []
  }

  function Row(d: Declaration, subject: Subject): Role -> RoleLoss {
    (role: Role) => LossOf(SupportFor(d, role), role, Written(subject.elements, role))
  }

  predicate LosesRequired(d: Declaration, subject: Subject, role: Role) {
    && role in RequiredRoles(subject.kind)
    && Written(subject.elements, role) != []
    && Drops(SupportFor(d, role), Written(subject.elements, role))
  }

  function Rows(d: Declaration, subject: Subject, roles: seq<Role>): seq<RoleLoss> {
    Map(Row(d, subject), Filter(HasContent(subject), roles))
  }

  ghost predicate LosesAny(d: Declaration, subject: Subject, roles: seq<Role>) {
    exists role :: role in roles && LosesRequired(d, subject, role)
  }

  lemma {:induction false} LosesSnoc(d: Declaration, subject: Subject, roles: seq<Role>, role: Role)
    ensures LosesAny(d, subject, roles + [role]) <==> LosesAny(d, subject, roles) || LosesRequired(d, subject, role)
  {
    hide LosesRequired;
    if LosesAny(d, subject, roles) {
      var r :| r in roles && LosesRequired(d, subject, r);
      assert r in roles + [role];
    }
    if LosesRequired(d, subject, role) { assert role in roles + [role]; }
  }

  /** A report has a row for each role with content, in order, and there is none
      exactly where content the kind requires would be dropped. */
  lemma {:induction false} ReportExactly(d: Declaration, subject: Subject, roles: seq<Role>)
    ensures Report(d, subject, roles).None? <==> LosesAny(d, subject, roles)
    ensures Report(d, subject, roles).Some? ==>
      Report(d, subject, roles).value == Rows(d, subject, roles)
    decreases |roles|
  {
    hide *;
    if roles == [] {
      ReportNone(d, subject);
    } else {
      var n := |roles| - 1;
      assert roles == roles[..n] + [roles[n]];
      ReportExactly(d, subject, roles[..n]);
      ReportOne(d, subject, roles[..n], roles[n]);
      LosesSnoc(d, subject, roles[..n], roles[n]);
      RowsSnoc(d, subject, roles[..n], roles[n]);
    }
  }

  lemma {:induction false} ReportNone(d: Declaration, subject: Subject)
    ensures Report(d, subject, []) == Some([]) && Rows(d, subject, []) == [] && !LosesAny(d, subject, [])
  {
  }

  lemma {:induction false} RowsSnoc(d: Declaration, subject: Subject, roles: seq<Role>, role: Role)
    ensures Rows(d, subject, roles + [role]) ==
      Rows(d, subject, roles) + (if HasContent(subject)(role) then [Row(d, subject)(role)] else [])
  {
    var keep, row := HasContent(subject), Row(d, subject);
    assert Rows(d, subject, roles + [role]) == Map(row, Filter(keep, roles + [role]));
    hide Row;
    hide HasContent;
    FilterConcat(keep, roles, [role]);
    FilterSingle(keep, role);
    MapConcat(row, Filter(keep, roles), Filter(keep, [role]));
    assert Map(row, [role]) == [row(role)] && Map(row, []) == [];
    var kept := Map(row, Filter(keep, roles));
    assert kept + [] == kept;
  }

  /** What the next role adds to a report. */
  lemma {:induction false} ReportOne(d: Declaration, subject: Subject, roles: seq<Role>, role: Role)
    ensures Report(d, subject, roles + [role]) ==
      match Report(d, subject, roles)
      case None => None
      case Some(rows) =>
        if LosesRequired(d, subject, role) then None
        else Some(rows + (if HasContent(subject)(role) then [Row(d, subject)(role)] else []))
  {
    var written := Written(subject.elements, role);
    var i := |roles|;
    assert (roles + [role])[..i + 1] == roles + [role] && (roles + [role])[..i] == roles;
    ReportNext(d, subject, roles + [role], i);
    if Report(d, subject, roles).Some? {
      assert Report(d, subject, roles).value + [] == Report(d, subject, roles).value;
    }
    assert LossOf(SupportFor(d, role), role, written).verdict == Dropped <==> Drops(SupportFor(d, role), written);
    hide Report;
    hide Written;
    hide Drops;
    hide SupportFor;
    hide LossOf;
    hide RequiredRoles;
  }

  ghost predicate KeepsRequired(d: Declaration, subject: Subject) {
    forall role | role in RequiredRoles(subject.kind) && Written(subject.elements, role) != [] ::
      !Drops(SupportFor(d, role), Written(subject.elements, role))
  }

  lemma {:induction false} RequiredAreReported(kind: Kind)
    ensures forall role | role in RequiredRoles(kind) :: role in AllRoles()
  {
  }

  lemma {:induction false} ReportKeeps(d: Declaration, subject: Subject)
    ensures Report(d, subject, AllRoles()).Some? <==> KeepsRequired(d, subject)
  {
    ReportExactly(d, subject, AllRoles());
    RequiredAreReported(subject.kind);
    hide AllRoles;
    hide Report;
    hide RequiredRoles;
    hide Written;
    hide Drops;
    if !KeepsRequired(d, subject) {
      var role :| role in RequiredRoles(subject.kind) && Written(subject.elements, role) != []
                  && Drops(SupportFor(d, role), Written(subject.elements, role));
      assert LosesRequired(d, subject, role);
    }
  }

  // ---- the offered list ---------------------------------------------------

  ghost predicate Offers(registry: Registry, subject: Subject, id: string) {
    id in registry && Eligible(registry[id], subject) && KeepsRequired(registry[id], subject)
  }

  function Formats(targets: seq<Target>): seq<string> {
    Map((t: Target) => t.format, targets)
  }

  /** The row of each offered format. */
  ghost predicate Costed(registry: Registry, subject: Subject, target: Target) {
    && target.format in registry
    && target.roles == Rows(registry[target.format], subject, AllRoles())
  }

  /** The offers made out of some ids. */
  ghost predicate OffersOf(registry: Registry, ids: seq<string>, subject: Subject, targets: seq<Target>) {
    && (forall id :: id in Formats(targets) <==> id in ids && Offers(registry, subject, id))
    && Distinct(Formats(targets))
    && (forall i | 0 <= i < |targets| :: Costed(registry, subject, targets[i]) && !targets[i].recommended)
  }

  lemma {:induction false} OneMoreOffer(registry: Registry, ids: seq<string>, subject: Subject, before: seq<Target>,
                                        target: Target)
    requires OffersOf(registry, ids, subject, before) && target.format !in ids && Offers(registry, subject, target.format)
    requires Costed(registry, subject, target) && !target.recommended
    ensures OffersOf(registry, ids + [target.format], subject, before + [target])
  {
    hide Offers;
    hide Costed;
    assert Formats(before + [target]) == Formats(before) + [target.format];
  }

  lemma {:induction false} NoMoreOffer(registry: Registry, ids: seq<string>, subject: Subject, before: seq<Target>,
                                       id: string)
    requires OffersOf(registry, ids, subject, before) && !Offers(registry, subject, id)
    ensures OffersOf(registry, ids + [id], subject, before)
  {
    hide Offers;
    hide Costed;
  }

  lemma {:induction false} OfferMade(registry: Registry, subject: Subject, id: string)
    requires RegistryOk(registry) && id in registry
    ensures Offers(registry, subject, id) <==>
      Eligible(registry[id], subject) && Report(registry[id], subject, AllRoles()).Some?
    ensures Report(registry[id], subject, AllRoles()).Some? ==>
      Costed(registry, subject, Target(id, false, Report(registry[id], subject, AllRoles()).value))
  {
    ReportKeeps(registry[id], subject);
    ReportExactly(registry[id], subject, AllRoles());
    hide Report;
    hide AllRoles;
    hide KeepsRequired;
    hide Eligible;
    hide LosesRequired;
  }

  lemma {:induction false} OfferedFormats(registry: Registry, ids: seq<string>, subject: Subject)
    requires RegistryOk(registry) && Distinct(ids) && forall id | id in ids :: id in registry
    ensures OffersOf(registry, ids, subject, OfferedFrom(registry, ids, subject))
    decreases |ids|
  {
    if ids != [] {
      var n := |ids| - 1;
      var id := ids[n];
      var before := OfferedFrom(registry, ids[..n], subject);
      assert ids == ids[..n] + [id];
      assert id !in ids[..n];
      OfferedFormats(registry, ids[..n], subject);
      assert registry[id].id == id;
      OfferMade(registry, subject, id);
      hide OffersOf;
      hide Report;
      hide Eligible;
      hide AllRoles;
      hide Offers;
      hide Costed;
      if Offers(registry, subject, id) {
        OneMoreOffer(registry, ids[..n], subject, before,
                     Target(id, false, Report(registry[id], subject, AllRoles()).value));
      } else {
        NoMoreOffer(registry, ids[..n], subject, before, id);
      }
    }
  }

  lemma {:induction false} SortedIdsDistinct(registry: Registry)
    ensures Distinct(SortedIds(registry))
  {
    SortBag(TextLe, Listed(registry.Keys));
    PermutedDistinct(Sort(TextLe, Listed(registry.Keys)), Listed(registry.Keys));
  }

  // ---- the recommendation -------------------------------------------------

  lemma {:induction false} OutranksAsymmetric(registry: Registry, a: Target, b: Target)
    requires a.format != b.format
    ensures Outranks(registry, a, b) <==> !Outranks(registry, b, a)
  {
    hide Reach;
    hide LossCount;
    hide WritableRoles;
    TextLeTotal(a.format, b.format);
  }

  lemma {:induction false} OutranksTransitive(registry: Registry, a: Target, b: Target, c: Target)
    requires Outranks(registry, a, b) && Outranks(registry, b, c)
    ensures Outranks(registry, a, c)
  {
    hide Reach;
    hide LossCount;
    hide WritableRoles;
    if TextLe(c.format, a.format) {
      TextLeTotal(b.format, c.format);
      TextLeTotal(a.format, b.format);
      if TextLe(b.format, c.format) { TextLeTransitive(b.format, c.format, a.format); }
    }
    hide TextLe;
  }

  /** The recommended target outranks every other one. */
  lemma {:induction false} BestOutranks(registry: Registry, targets: seq<Target>, n: nat)
    requires n <= |targets| && Distinct(Formats(targets))
    ensures Best(registry, targets, n).Some? ==>
      forall i | 0 <= i < n && i != Best(registry, targets, n).value ::
        Outranks(registry, targets[Best(registry, targets, n).value], targets[i])
    decreases n
  {
    if n > 1 {
      BestOutranks(registry, targets, n - 1);
      var b := Best(registry, targets, n - 1).value;
      assert Formats(targets)[b] != Formats(targets)[n - 1];
      OutranksAsymmetric(registry, targets[n - 1], targets[b]);
      forall i | 0 <= i < n - 1 && i != b && Outranks(registry, targets[n - 1], targets[b])
        ensures Outranks(registry, targets[n - 1], targets[i])
      {
        OutranksTransitive(registry, targets[n - 1], targets[b], targets[i]);
      }
      hide Outranks;
    }
  }

  ghost predicate BestOf(registry: Registry, targets: seq<Target>, b: nat) {
    && b < |targets|
    && (forall i | 0 <= i < |targets| :: targets[i].recommended <==> i == b)
    && (forall i | 0 <= i < |targets| && i != b :: Outranks(registry, targets[b], targets[i]))
  }

  /** The formats offered are exactly the writers of the kind, tested with the
      origin and allowed, that drop nothing the kind requires; each is costed
      role by role; and one that outranks every other is recommended. */
  lemma {:induction false} OfferedExactly(registry: Registry, subject: Subject)
    requires RegistryOk(registry)
    ensures var targets := Offered(registry, subject);
      && (forall id :: id in Formats(targets) <==> Offers(registry, subject, id))
      && Distinct(Formats(targets))
      && (forall i | 0 <= i < |targets| :: Costed(registry, subject, targets[i]))
      && (targets != [] ==> exists b: nat :: BestOf(registry, targets, b))
  {
    var ids := SortedIds(registry);
    SortedIdsDistinct(registry);
    OfferedFormats(registry, ids, subject);
    var plain := OfferedFrom(registry, ids, subject);
    hide OfferedFrom;
    hide Costed;
    hide Offers;
    hide SortedIds;
    BestOutranks(registry, plain, |plain|);
    if plain != [] {
      MarkedBest(registry, subject, plain, Best(registry, plain, |plain|).value);
    }
  }

  lemma {:induction false} MarkedBest(registry: Registry, subject: Subject, plain: seq<Target>, b: nat)
    requires b < |plain|
    requires forall i | 0 <= i < |plain| :: Costed(registry, subject, plain[i]) && !plain[i].recommended
    requires forall i | 0 <= i < |plain| && i != b :: Outranks(registry, plain[b], plain[i])
    ensures var targets := plain[b := plain[b].(recommended := true)];
      && Formats(targets) == Formats(plain)
      && BestOf(registry, targets, b)
      && forall i | 0 <= i < |targets| :: Costed(registry, subject, targets[i])
  {
    hide *;
    var targets := plain[b := plain[b].(recommended := true)];
    CostedBlind(registry, subject, plain[b]);
    forall i | 0 <= i < |plain| ensures Costed(registry, subject, targets[i]) {
      if i != b { assert targets[i] == plain[i]; }
    }
    forall i | 0 <= i < |plain| && i != b ensures Outranks(registry, targets[b], targets[i]) {
      OutranksBlind(registry, plain[b], plain[i]);
    }
    MarkedIs(registry, plain, b);
  }

  lemma {:induction false} CostedBlind(registry: Registry, subject: Subject, t: Target)
    ensures Costed(registry, subject, t) <==> Costed(registry, subject, t.(recommended := true))
  {
  }

  lemma {:induction false} OutranksBlind(registry: Registry, a: Target, b: Target)
    ensures Outranks(registry, a, b) <==> Outranks(registry, a.(recommended := true), b)
  {
  }

  lemma {:induction false} MarkedIs(registry: Registry, plain: seq<Target>, b: nat)
    requires b < |plain| && forall i | 0 <= i < |plain| :: !plain[i].recommended
    ensures var targets := plain[b := plain[b].(recommended := true)];
      && Formats(targets) == Formats(plain)
      && ((forall i | 0 <= i < |plain| && i != b :: Outranks(registry, targets[b], targets[i])) ==>
            BestOf(registry, targets, b))
  {
    var targets := plain[b := plain[b].(recommended := true)];
    assert Formats(targets) == Formats(plain);
    hide Outranks;
  }

  // ---- page order ---------------------------------------------------------

  lemma {:induction false} WrittenPermuted(x: seq<Element>, y: seq<Element>, role: Role)
    requires multiset(x) == multiset(y)
    ensures multiset(Written(x, role)) == multiset(Written(y, role))
    ensures Written(x, role) == [] <==> Written(y, role) == []
  {
    FilterPermuted(Carries(role), x, y);
    MapPermuted(ContentOf, Filter(Carries(role), x), Filter(Carries(role), y));
    assert |multiset(Written(x, role))| == |Written(x, role)|;
    assert |multiset(Written(y, role))| == |Written(y, role)|;
  }

  lemma {:induction false} MatchesPermuted(condition: Option<Condition>, x: seq<Content>, y: seq<Content>)
    requires multiset(x) == multiset(y) && MatchesAny(condition, x)
    ensures MatchesAny(condition, y)
  {
    var i :| 0 <= i < |x| && condition.value.matches.value(x[i]);
    assert x[i] in multiset(y);
    var j :| 0 <= j < |y| && y[j] == x[i];
  }

  lemma {:induction false} VerdictsPermuted(support: Support, x: seq<Content>, y: seq<Content>)
    requires multiset(x) == multiset(y)
    ensures Drops(support, x) <==> Drops(support, y)
    ensures Reduces(support, x) <==> Reduces(support, y)
  {
    if MatchesAny(support.dropWhen, x) { MatchesPermuted(support.dropWhen, x, y); }
    if MatchesAny(support.dropWhen, y) { MatchesPermuted(support.dropWhen, y, x); }
    if MatchesAny(support.condition, x) { MatchesPermuted(support.condition, x, y); }
    if MatchesAny(support.condition, y) { MatchesPermuted(support.condition, y, x); }
    hide MatchesAny;
  }

  /** Two rows that differ at most in their samples. */
  predicate SameVerdict(a: RoleLoss, b: RoleLoss) {
    a == b.(sample := a.sample)
  }

  ghost predicate SameVerdicts(a: seq<RoleLoss>, b: seq<RoleLoss>) {
    |a| == |b| && forall i | 0 <= i < |a| :: SameVerdict(a[i], b[i])
  }

  predicate SameCost(a: Target, b: Target)
  {
    && a.format == b.format && a.recommended == b.recommended
    && |a.roles| == |b.roles| && forall i | 0 <= i < |a.roles| :: SameVerdict(a.roles[i], b.roles[i])
  }

  ghost predicate SameCosts(a: seq<Target>, b: seq<Target>) {
    |a| == |b| && forall i | 0 <= i < |a| :: SameCost(a[i], b[i])
  }

  ghost predicate Rearranged(x: Subject, y: Subject) {
    y == x.(elements := y.elements) && multiset(x.elements) == multiset(y.elements)
  }

  lemma {:induction false} RowPermuted(d: Declaration, x: Subject, y: Subject, role: Role)
    requires Rearranged(x, y)
    ensures SameVerdict(Row(d, x)(role), Row(d, y)(role))
    ensures HasContent(x)(role) == HasContent(y)(role)
    ensures LosesRequired(d, x, role) == LosesRequired(d, y, role)
  {
    hide *;
    var u, v := Written(x.elements, role), Written(y.elements, role);
    RearrangedElements(x, y);
    WrittenPermuted(x.elements, y.elements, role);
    VerdictsPermuted(SupportFor(d, role), u, v);
    RowIs(d, x, role);
    RowIs(d, y, role);
    LossAlike(SupportFor(d, role), role, u, v);
    RolePermuted(d, x, y, role);
  }

  lemma {:induction false} LossAlike(support: Support, role: Role, u: seq<Content>, v: seq<Content>)
    requires Drops(support, u) == Drops(support, v) && Reduces(support, u) == Reduces(support, v)
    ensures SameVerdict(LossOf(support, role, u), LossOf(support, role, v))
  {
    assert Reduces(support, u) ==> support.condition.Some?;
    assert Reduces(support, v) ==> support.condition.Some?;
    hide Drops;
    hide Reduces;
    hide TakeSample;
  }

  lemma {:induction false} RolePermuted(d: Declaration, x: Subject, y: Subject, role: Role)
    requires Rearranged(x, y)
    requires var u, v := Written(x.elements, role), Written(y.elements, role);
      (u == [] <==> v == []) && Drops(SupportFor(d, role), u) == Drops(SupportFor(d, role), v)
    ensures HasContent(x)(role) == HasContent(y)(role)
    ensures LosesRequired(d, x, role) == LosesRequired(d, y, role)
  {
    hide Written;
    hide Drops;
    hide SupportFor;
    hide RequiredRoles;
  }

  lemma {:induction false} SameFilter<T(!new)>(f: T -> bool, g: T -> bool, s: seq<T>)
    requires forall x | x in s :: f(x) == g(x)
    ensures Filter(f, s) == Filter(g, s)
  {
    if s != [] { SameFilter(f, g, s[1..]); }
  }

  lemma {:induction false} ReportPermuted(d: Declaration, x: Subject, y: Subject, roles: seq<Role>)
    requires Rearranged(x, y)
    ensures Report(d, x, roles).Some? <==> Report(d, y, roles).Some?
    ensures Report(d, x, roles).Some? ==> SameVerdicts(Report(d, x, roles).value, Report(d, y, roles).value)
  {
    ReportExactly(d, x, roles);
    ReportExactly(d, y, roles);
    forall role ensures SameVerdict(Row(d, x)(role), Row(d, y)(role)) && HasContent(x)(role) == HasContent(y)(role)
                        && LosesRequired(d, x, role) == LosesRequired(d, y, role)
    {
      RowPermuted(d, x, y, role);
    }
    SameFilter(HasContent(x), HasContent(y), roles);
    hide Report;
    hide Row;
    hide HasContent;
    hide LosesRequired;
    hide SameVerdict;
  }

  lemma {:induction false} OfferedFromPermuted(registry: Registry, ids: seq<string>, x: Subject, y: Subject)
    requires Rearranged(x, y) && forall id | id in ids :: id in registry
    ensures SameCosts(OfferedFrom(registry, ids, x), OfferedFrom(registry, ids, y))
    decreases |ids|
  {
    if ids != [] {
      var n := |ids| - 1;
      OfferedFromPermuted(registry, ids[..n], x, y);
      ReportPermuted(registry[ids[n]], x, y, AllRoles());
      hide Report;
      hide AllRoles;
      hide SameVerdict;
    }
  }

  lemma {:induction false} LossCountSame(a: seq<RoleLoss>, b: seq<RoleLoss>)
    requires SameVerdicts(a, b)
    ensures LossCount(a) == LossCount(b)
  {
    if a != [] {
      assert SameVerdict(a[0], b[0]);
      assert SameVerdicts(a[1..], b[1..]);
      LossCountSame(a[1..], b[1..]);
    }
  }

  lemma {:induction false} BestSame(registry: Registry, a: seq<Target>, b: seq<Target>, n: nat)
    requires SameCosts(a, b) && n <= |a|
    ensures Best(registry, a, n) == Best(registry, b, n)
    decreases n
  {
    if n > 0 {
      BestSame(registry, a, b, n - 1);
      if n > 1 {
        var k := Best(registry, a, n - 1).value;
        assert SameCost(a[n - 1], b[n - 1]) && SameCost(a[k], b[k]);
        LossCountSame(a[n - 1].roles, b[n - 1].roles);
        LossCountSame(a[k].roles, b[k].roles);
        hide SameVerdict;
        hide Reach;
        hide WritableRoles;
        hide TextLe;
        assert Outranks(registry, a[n - 1], a[k]) == Outranks(registry, b[n - 1], b[k]);
        hide Outranks;
      }
    }
  }

  /** Moving elements about changes no offer, no recommendation and no verdict. */
  lemma {:induction false} OfferedPermuted(registry: Registry, x: Subject, y: Subject)
    requires Rearranged(x, y)
    ensures SameCosts(Offered(registry, x), Offered(registry, y))
  {
    var ids := SortedIds(registry);
    OfferedFromPermuted(registry, ids, x, y);
    var a, b := OfferedFrom(registry, ids, x), OfferedFrom(registry, ids, y);
    BestSame(registry, a, b, |a|);
    hide OfferedFrom;
    hide SortedIds;
    hide Best;
    hide SameVerdict;
  }

  // ---- samples ------------------------------------------------------------

  function GallerySample(subject: Subject): Sample {
    TakeSample(Written(subject.elements, GalleryImages))
  }

  lemma {:induction false} WrittenOnce(elements: seq<Element>, role: Role)
    requires multiset(Roles(elements))[role] <= 1
    ensures |Written(elements, role)| <= 1
    decreases |elements|
  {
    if elements != [] {
      var n := |elements| - 1;
      var e := elements[n];
      assert elements == elements[..n] + [e];
      assert Roles(elements) == Roles(elements[..n]) + [e.role];
      FilterConcat(Carries(role), elements[..n], [e]);
      assert Filter(Carries(role), [e]) == if Carries(role)(e) then [e] else [];
      if e.role == role {
        WrittenNone(elements[..n], role);
      } else {
        WrittenOnce(elements[..n], role);
      }
    }
  }

  lemma {:induction false} WrittenNone(elements: seq<Element>, role: Role)
    requires role !in Roles(elements)
    ensures Written(elements, role) == []
  {
    if elements != [] {
      assert Roles(elements)[0] == elements[0].role;
      assert Roles(elements) == [elements[0].role] + Roles(elements[1..]);
      WrittenNone(elements[1..], role);
    }
  }

  lemma {:induction false} ShortBags<T>(s: seq<T>, t: seq<T>)
    requires multiset(s) == multiset(t) && |s| <= 1
    ensures s == t
  {
    assert |multiset(s)| == |s| && |multiset(t)| == |t|;
    if s != [] { assert s == [s[0]] && t == [t[0]] && t[0] in multiset(s); }
  }

  /** A role with one element has the same row wherever the element stands. */
  lemma {:induction false} RowFixed(d: Declaration, x: Subject, y: Subject, role: Role)
    requires Rearranged(x, y) && RolesOnce(x.elements) && role != NoRole
    requires GallerySample(x) == GallerySample(y)
    ensures Row(d, x)(role) == Row(d, y)(role)
  {
    hide *;
    var u, v := Written(x.elements, role), Written(y.elements, role);
    RearrangedElements(x, y);
    WrittenPermuted(x.elements, y.elements, role);
    VerdictsPermuted(SupportFor(d, role), u, v);
    if role != GalleryImages {
      RoleHeldOnce(x.elements, role);
      WrittenOnce(x.elements, role);
      ShortBags(u, v);
    } else {
      GallerySampleIs(x);
      GallerySampleIs(y);
    }
    RowIs(d, x, role);
    RowIs(d, y, role);
    LossSame(SupportFor(d, role), role, u, v);
  }

  lemma {:induction false} RearrangedElements(x: Subject, y: Subject)
    requires Rearranged(x, y)
    ensures multiset(x.elements) == multiset(y.elements)
  {
  }

  lemma {:induction false} RoleHeldOnce(elements: seq<Element>, role: Role)
    requires RolesOnce(elements) && role != NoRole && role != GalleryImages
    ensures multiset(Roles(elements))[role] <= 1
  {
  }

  lemma {:induction false} GallerySampleIs(x: Subject)
    ensures GallerySample(x) == TakeSample(Written(x.elements, GalleryImages))
  {
  }

  lemma {:induction false} RowIs(d: Declaration, x: Subject, role: Role)
    ensures Row(d, x)(role) == LossOf(SupportFor(d, role), role, Written(x.elements, role))
  {
    hide LossOf;
  }

  lemma {:induction false} LossSame(support: Support, role: Role, u: seq<Content>, v: seq<Content>)
    requires Drops(support, u) == Drops(support, v) && Reduces(support, u) == Reduces(support, v)
    requires TakeSample(u) == TakeSample(v)
    ensures LossOf(support, role, u) == LossOf(support, role, v)
  {
    assert Reduces(support, u) ==> support.condition.Some?;
    assert Reduces(support, v) ==> support.condition.Some?;
    hide Drops;
    hide Reduces;
    hide TakeSample;
  }

  lemma {:induction false} LossSampled(support: Support, role: Role, u: seq<Content>)
    ensures LossOf(support, role, u).sample == TakeSample(u)
  {
    assert Reduces(support, u) ==> support.condition.Some?;
    hide Drops;
    hide Reduces;
    hide TakeSample;
  }

  lemma {:induction false} ReportFixed(d: Declaration, x: Subject, y: Subject, roles: seq<Role>)
    requires Rearranged(x, y) && RolesOnce(x.elements) && NoRole !in roles
    requires GallerySample(x) == GallerySample(y)
    ensures Report(d, x, roles) == Report(d, y, roles)
  {
    hide *;
    ReportExactly(d, x, roles);
    ReportExactly(d, y, roles);
    ReportPermuted(d, x, y, roles);
    forall role | role in roles
      ensures Row(d, x)(role) == Row(d, y)(role) && HasContent(x)(role) == HasContent(y)(role)
    {
      RowFixed(d, x, y, role);
      RowPermuted(d, x, y, role);
    }
    SameFilter(HasContent(x), HasContent(y), roles);
    var kept := Filter(HasContent(x), roles);
    assert Map(Row(d, x), kept) == Map(Row(d, y), kept);
    RowsAre(d, x, roles);
    RowsAre(d, y, roles);
  }

  lemma {:induction false} RowsAre(d: Declaration, x: Subject, roles: seq<Role>)
    ensures Rows(d, x, roles) == Map(Row(d, x), Filter(HasContent(x), roles))
  {
    hide Row;
    hide HasContent;
  }

  lemma {:induction false} OfferedFixed(registry: Registry, ids: seq<string>, x: Subject, y: Subject)
    requires Rearranged(x, y) && RolesOnce(x.elements) && forall id | id in ids :: id in registry
    requires GallerySample(x) == GallerySample(y)
    ensures OfferedFrom(registry, ids, x) == OfferedFrom(registry, ids, y)
    decreases |ids|
  {
    if ids != [] {
      OfferedFixed(registry, ids[..|ids| - 1], x, y);
      assert NoRole !in AllRoles();
      ReportFixed(registry[ids[|ids| - 1]], x, y, AllRoles());
      hide Report;
      hide AllRoles;
      hide RolesOnce;
      hide GallerySample;
      hide Rearranged;
      hide Eligible;
    }
  }

  /** Rearranging a page leaves the stored offers exactly as they would be
      recomputed if and only if its galleries still open with the same pictures. */
  lemma {:induction false} OfferedExactlyFixed(registry: Registry, x: Subject, y: Subject)
    requires RegistryOk(registry) && Rearranged(x, y) && RolesOnce(x.elements)
    ensures Offered(registry, x) == Offered(registry, y) <==>
      Offered(registry, x) == [] || GallerySample(x) == GallerySample(y)
  {
    var ids := SortedIds(registry);
    if GallerySample(x) == GallerySample(y) {
      OfferedFixed(registry, ids, x, y);
    }
    OfferedPermuted(registry, x, y);
    hide *;
    if Offered(registry, x) == Offered(registry, y) && Offered(registry, x) != [] {
      OfferedExactly(registry, x);
      OfferedExactly(registry, y);
      OffersTellGallery(registry, x, y, Offered(registry, x)[0]);
    }
    if Offered(registry, x) == [] { NoOffers(Offered(registry, x), Offered(registry, y)); }
  }

  lemma {:induction false} NoOffers(a: seq<Target>, b: seq<Target>)
    requires a == [] && SameCosts(a, b)
    ensures b == []
  {
  }

  lemma {:induction false} OffersTellGallery(registry: Registry, x: Subject, y: Subject, t: Target)
    requires Rearranged(x, y) && Costed(registry, x, t) && Costed(registry, y, t)
    ensures GallerySample(x) == GallerySample(y)
  {
    var d := registry[t.format];
    forall role ensures HasContent(x)(role) == HasContent(y)(role) { RowPermuted(d, x, y, role); }
    SameFilter(HasContent(x), HasContent(y), AllRoles());
    var kept := Filter(HasContent(x), AllRoles());
    assert GalleryImages in AllRoles();
    if HasContent(x)(GalleryImages) {
      FilterHas(HasContent(x), AllRoles());
      var k :| 0 <= k < |kept| && kept[k] == GalleryImages;
      assert Map(Row(d, x), kept)[k] == Row(d, x)(GalleryImages);
      assert Map(Row(d, y), kept)[k] == Row(d, y)(GalleryImages);
      SampleOfRow(d, x, GalleryImages);
      SampleOfRow(d, y, GalleryImages);
    }
    hide AllRoles;
    hide Row;
  }

  lemma {:induction false} SampleOfRow(d: Declaration, subject: Subject, role: Role)
    ensures Row(d, subject)(role).sample == TakeSample(Written(subject.elements, role))
  {
    hide *;
    RowIs(d, subject, role);
    LossSampled(SupportFor(d, role), role, Written(subject.elements, role));
  }
}
