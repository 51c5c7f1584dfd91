/** What the offered formats mean, in terms of the declarations, the content and the
    applications alone. */
module CapabilityExact {
  import opened Sequences
  import opened Sorting
  import opened Blocks
  import opened Catalog
  import opened Capability
  import opened CapabilityLaws

  // ---- the recommendation -------------------------------------------------

  /** The applications that open a format. */
  function Opening(format: string): set<App> { set app | app in Apps() && format in app.opens }

  /** The rows that cost the asset something. */
  function Losing(target: Target): set<nat> {
    set i: nat | i < |target.roles| && target.roles[i].verdict != Carried
  }

  /** The roles a format can write. */
  function Writing(registry: Registry, format: string): set<Role>
    requires format in registry
  {
    set role | role in registry[format].roles && registry[format].roles[role].grade != NoSupport
  }

  function OpeningAmong(apps: seq<App>, format: string): set<App> { set app | app in apps && format in app.opens }

  lemma {:induction false} OneMoreApp(apps: seq<App>, format: string)
    requires Distinct(apps) && apps != []
    ensures apps[0] !in OpeningAmong(apps[1..], format)
    ensures OpeningAmong(apps, format) ==
      OpeningAmong(apps[1..], format) + (if format in apps[0].opens then {apps[0]} else {})
  {
    assert apps[0] !in apps[1..];
    forall app ensures app in apps <==> app == apps[0] || app in apps[1..] { assert apps == [apps[0]] + apps[1..]; }
  }

  lemma {:induction false} ReachInCounts(apps: seq<App>, format: string)
    requires Distinct(apps)
    ensures ReachIn(apps, format) == |OpeningAmong(apps, format)|
  {
    if apps == [] {
      assert OpeningAmong(apps, format) == {};
    } else {
      OneMoreApp(apps, format);
      ReachInCounts(apps[1..], format);
      hide OpeningAmong;
    }
  }

  lemma {:induction false} ReachCounts(format: string)
    ensures Reach(format) == |Opening(format)|
  {
    AppsDiffer();
    hide Apps;
    ReachInCounts(Apps(), format);
    assert Opening(format) == OpeningAmong(Apps(), format);
  }

  lemma {:induction false} AppsDiffer()
    ensures Distinct(Apps())
  {
    assert Apps()[0].id != Apps()[1].id && Apps()[0].id != Apps()[2].id && Apps()[1].id != Apps()[2].id;
  }

  lemma {:induction false} LossSnoc(roles: seq<RoleLoss>, loss: RoleLoss)
    ensures LossCount(roles + [loss]) == LossCount(roles) + (if loss.verdict != Carried then 1 else 0)
  {
    if roles == [] {
      assert roles + [loss] == [loss] && [loss][1..] == [];
    } else {
      var all := roles + [loss];
      assert all[1..] == roles[1..] + [loss] && all[0] == roles[0];
      LossSnoc(roles[1..], loss);
    }
  }

  lemma {:induction false} LossesCount(roles: seq<RoleLoss>)
    ensures LossCount(roles) == |set i: nat | i < |roles| && roles[i].verdict != Carried|
    decreases |roles|
  {
    var losing := set i: nat | i < |roles| && roles[i].verdict != Carried;
    if roles == [] {
      assert losing == {};
    } else {
      var n := |roles| - 1;
      var before := roles[..n];
      var rest := set i: nat | i < |before| && before[i].verdict != Carried;
      LossesCount(before);
      assert roles == before + [roles[n]];
      LossSnoc(before, roles[n]);
      assert losing == rest + (if roles[n].verdict != Carried then {n} else {});
    }
  }

  /** A target that no other one beats: it opens in the most applications; of those
      that open in as many it loses least; of those that lose as little it can write
      the most roles; and of what is left it comes first by id. */
  ghost predicate Foremost(registry: Registry, targets: seq<Target>, b: nat)
    requires b < |targets| && forall t | t in targets :: t.format in registry
  {
    var best := targets[b];
    && (forall t | t in targets :: |Opening(t.format)| <= |Opening(best.format)|)
    && (forall t | t in targets && |Opening(t.format)| == |Opening(best.format)| :: |Losing(best)| <= |Losing(t)|)
    && (forall t | t in targets && |Opening(t.format)| == |Opening(best.format)| && |Losing(t)| == |Losing(best)| ::
          |Writing(registry, t.format)| <= |Writing(registry, best.format)|)
    && (forall t | t in targets && |Opening(t.format)| == |Opening(best.format)| && |Losing(t)| == |Losing(best)|
                   && |Writing(registry, t.format)| == |Writing(registry, best.format)| :: TextLe(best.format, t.format))
  }

  lemma {:induction false} OutranksMeans(registry: Registry, best: Target, t: Target)
    requires Outranks(registry, best, t) && best.format in registry && t.format in registry
    ensures |Opening(t.format)| <= |Opening(best.format)|
    ensures |Opening(t.format)| == |Opening(best.format)| ==> |Losing(best)| <= |Losing(t)|
    ensures |Opening(t.format)| == |Opening(best.format)| && |Losing(t)| == |Losing(best)| ==>
      |Writing(registry, t.format)| <= |Writing(registry, best.format)|
    ensures (|Opening(t.format)| == |Opening(best.format)| && |Losing(t)| == |Losing(best)|
             && |Writing(registry, t.format)| == |Writing(registry, best.format)|) ==> TextLe(best.format, t.format)
  {
    ReachCounts(t.format);
    ReachCounts(best.format);
    LossesCount(t.roles);
    LossesCount(best.roles);
    TextLeTotal(best.format, t.format);
    hide Reach;
    hide Opening;
    hide LossCount;
    hide TextLe;
  }

  /** Where anything is offered, exactly one target is recommended, and it is the
      foremost. */
  lemma {:induction false} RecommendedIsForemost(registry: Registry, subject: Subject)
    requires RegistryOk(registry)
    ensures var targets := Offered(registry, subject);
      && (forall t | t in targets :: t.format in registry)
      && (targets != [] ==>
            exists b: nat :: b < |targets| && Foremost(registry, targets, b)
                             && forall i | 0 <= i < |targets| :: targets[i].recommended <==> i == b)
  {
    hide *;
    var targets := Offered(registry, subject);
    OfferedExactly(registry, subject);
    forall i | 0 <= i < |targets| ensures targets[i].format in registry { CostedKnown(registry, subject, targets[i]); }
    if targets != [] {
      var b: nat :| BestOf(registry, targets, b);
      BestIsForemost(registry, targets, b);
    }
  }

  lemma {:induction false} CostedKnown(registry: Registry, subject: Subject, t: Target)
    requires Costed(registry, subject, t)
    ensures t.format in registry
  {
  }

  lemma {:induction false} BestIsForemost(registry: Registry, targets: seq<Target>, b: nat)
    requires BestOf(registry, targets, b) && forall t | t in targets :: t.format in registry
    ensures b < |targets| && Foremost(registry, targets, b)
    ensures forall i | 0 <= i < |targets| :: targets[i].recommended <==> i == b
  {
    hide Outranks;
    hide Opening;
    hide Losing;
    hide Writing;
    hide TextLe;
    forall t | t in targets && t != targets[b]
      ensures |Opening(t.format)| <= |Opening(targets[b].format)|
      ensures |Opening(t.format)| == |Opening(targets[b].format)| ==> |Losing(targets[b])| <= |Losing(t)|
      ensures |Opening(t.format)| == |Opening(targets[b].format)| && |Losing(t)| == |Losing(targets[b])| ==>
        |Writing(registry, t.format)| <= |Writing(registry, targets[b].format)|
      ensures (|Opening(t.format)| == |Opening(targets[b].format)| && |Losing(t)| == |Losing(targets[b])|
               && |Writing(registry, t.format)| == |Writing(registry, targets[b].format)|) ==>
        TextLe(targets[b].format, t.format)
    {
      var i :| 0 <= i < |targets| && targets[i] == t;
      OutranksMeans(registry, targets[b], t);
    }
    TextLeSelf(targets[b].format);
  }

  lemma {:induction false} TextLeSelf(a: string)
    ensures TextLe(a, a)
  {
    TextLeTotal(a, a);
  }

  // ---- what is offered ----------------------------------------------------

  /** Whether a condition holds of some written content of the role. */
  ghost predicate HoldsOfSome(condition: Option<Condition>, elements: seq<Element>, role: Role) {
    && condition.Some? && condition.value.matches.Some?
    && exists e :: e in elements && e.role == role && !e.content.empty && condition.value.matches.value(e.content)
  }

  ghost predicate IsWritten(elements: seq<Element>, role: Role) {
    exists e :: e in elements && e.role == role && !e.content.empty
  }

  /** A format drops a role it says nothing can carry, or whose content it says it
      cannot. */
  ghost predicate Losable(d: Declaration, elements: seq<Element>, role: Role) {
    role in d.roles && (d.roles[role].grade == NoSupport || HoldsOfSome(d.roles[role].dropWhen, elements, role))
  }

  lemma {:induction false} WrittenHas(elements: seq<Element>, role: Role)
    ensures Written(elements, role) != [] <==> IsWritten(elements, role)
    ensures forall condition :: MatchesAny(condition, Written(elements, role)) <==> HoldsOfSome(condition, elements, role)
  {
    var kept := Filter(Carries(role), elements);
    FilterHas(Carries(role), elements);
    if IsWritten(elements, role) {
      var e :| e in elements && e.role == role && !e.content.empty;
      assert Carries(role)(e);
      assert e in kept;
    }
    if kept != [] { assert kept[0] in elements && Carries(role)(kept[0]); }
    forall condition ensures MatchesAny(condition, Written(elements, role)) <==> HoldsOfSome(condition, elements, role) {
      MatchesMeans(condition, elements, role);
    }
    hide HoldsOfSome;
    hide MatchesAny;
    hide Filter;
  }

  lemma {:induction false} MatchesMeans(condition: Option<Condition>, elements: seq<Element>, role: Role)
    ensures MatchesAny(condition, Written(elements, role)) <==> HoldsOfSome(condition, elements, role)
  {
    var kept := Filter(Carries(role), elements);
    FilterHas(Carries(role), elements);
    hide Filter;
    if MatchesAny(condition, Written(elements, role)) {
      var i :| 0 <= i < |kept| && condition.value.matches.value(kept[i].content);
      assert kept[i] in kept;
    }
    if HoldsOfSome(condition, elements, role) {
      var e :| e in elements && e.role == role && !e.content.empty && condition.value.matches.value(e.content);
      assert Carries(role)(e);
      var i :| 0 <= i < |kept| && kept[i] == e;
      assert Written(elements, role)[i] == e.content;
    }
  }

  /** A format is offered exactly when it writes this kind, is tested with where the
      asset comes from, may be used, and drops nothing written that the kind
      requires. */
  lemma {:induction false} OfferedMeans(registry: Registry, subject: Subject, id: string)
    requires RegistryOk(registry)
    ensures id in Formats(Offered(registry, subject)) <==>
      && id in registry
      && var d := registry[id];
      && d.writes && d.kind == subject.kind
      && (if subject.origin == "" then "illarin" else subject.origin) in d.testedOrigins
      && (d.crossPlatform ==> id in subject.allowed)
      && forall role | role in RequiredRoles(subject.kind) && IsWritten(subject.elements, role) ::
           !Losable(d, subject.elements, role)
  {
    OfferedExactly(registry, subject);
    hide Offered;
    hide RequiredRoles;
    if id in registry {
      forall role | role in RequiredRoles(subject.kind)
        ensures Written(subject.elements, role) != [] <==> IsWritten(subject.elements, role)
        ensures Drops(SupportFor(registry[id], role), Written(subject.elements, role)) <==>
          Losable(registry[id], subject.elements, role)
      {
        DropsMeans(registry[id], subject.elements, role);
      }
    }
    hide Written;
    hide Drops;
    hide Losable;
    hide IsWritten;
  }

  lemma {:induction false} DropsMeans(d: Declaration, elements: seq<Element>, role: Role)
    ensures Written(elements, role) != [] <==> IsWritten(elements, role)
    ensures Drops(SupportFor(d, role), Written(elements, role)) <==> Losable(d, elements, role)
  {
    WrittenHas(elements, role);
    hide Written;
    hide IsWritten;
    hide HoldsOfSome;
  }

  lemma {:induction false} OffersAscend(registry: Registry, ids: seq<string>, subject: Subject)
    requires (forall id | id in ids :: id in registry) && RegistryOk(registry) && Ascending(TextLe, ids)
    ensures forall id | id in Formats(OfferedFrom(registry, ids, subject)) :: id in ids
    ensures Ascending(TextLe, Formats(OfferedFrom(registry, ids, subject)))
    decreases |ids|
  {
    hide TextLe;
    hide Report;
    hide Eligible;
    hide AllRoles;
    if ids != [] {
      var n := |ids| - 1;
      var before, after := OfferedFrom(registry, ids[..n], subject), OfferedFrom(registry, ids, subject);
      OffersAscend(registry, ids[..n], subject);
      forall id | id in ids[..n] ensures TextLe(id, ids[n]) {
        var i :| 0 <= i < n && ids[i] == id;
      }
      if after != before {
        assert Formats(after) == Formats(before) + [ids[n]];
        forall i | 0 <= i < |before| ensures TextLe(Formats(before)[i], ids[n]) {
          assert Formats(before)[i] in Formats(before);
        }
      }
    }
  }

  /** Marking one of them leaves the formats as they are. */
  lemma {:induction false} MarkingKeepsFormats(registry: Registry, subject: Subject)
    requires RegistryOk(registry)
    ensures Formats(Offered(registry, subject)) == Formats(OfferedFrom(registry, SortedIds(registry), subject))
  {
    hide OfferedFrom;
    hide SortedIds;
    hide Best;
    hide RegistryOk;
    var plain := OfferedFrom(registry, SortedIds(registry), subject);
    assert |Offered(registry, subject)| == |plain|;
  }

  /** The offers stand in order of id. */
  lemma {:induction false} OfferedAscend(registry: Registry, subject: Subject)
    requires RegistryOk(registry)
    ensures Ascending(TextLe, Formats(Offered(registry, subject)))
  {
    MarkingKeepsFormats(registry, subject);
    hide Offered;
    hide OfferedFrom;
    hide Formats;
    hide Ascending;
    hide TextLe;
    var ids := SortedIds(registry);
    TextIsTotal();
    SortAscends(TextLe, Capability.Listed(registry.Keys));
    OffersAscend(registry, ids, subject);
  }

  /** What a row says of its role: dropped, else reduced with its reason, else
      carried; where it goes unless dropped; and a sample of what is there. */
  ghost predicate Says(d: Declaration, elements: seq<Element>, loss: RoleLoss) {
    var role := loss.role;
    && loss.sample == TakeSample(Written(elements, role))
    && (if Losable(d, elements, role) then loss.verdict == Dropped && loss.reason == "" && loss.destination == ""
        else
          && loss.destination == (if role in d.roles then d.roles[role].destination else "")
          && (if role in d.roles && d.roles[role].grade == PartialSupport && HoldsOfSome(d.roles[role].condition, elements, role)
              then loss.verdict == Reduced && loss.reason == d.roles[role].condition.value.description
              else loss.verdict == Carried && loss.reason == ""))
  }

  /** An offer has a row for each role something is written in and no other, and each
      says what becomes of it. */
  lemma {:induction false} RowsSay(registry: Registry, subject: Subject, t: Target)
    requires RegistryOk(registry) && t in Offered(registry, subject)
    ensures t.format in registry
    ensures forall role :: (exists loss :: loss in t.roles && loss.role == role) <==>
                             role in AllRoles() && IsWritten(subject.elements, role)
    ensures forall loss | loss in t.roles :: Says(registry[t.format], subject.elements, loss)
  {
    OfferedExactly(registry, subject);
    hide Offered;
    var i :| 0 <= i < |Offered(registry, subject)| && Offered(registry, subject)[i] == t;
    assert Costed(registry, subject, t);
    hide *;
    CostedIs(registry, subject, t);
    var kept := RowsOf(registry[t.format], subject);
    AllSay(registry[t.format], subject.elements, t.roles, kept);
  }

  lemma {:induction false} AllSay(d: Declaration, elements: seq<Element>, rows: seq<RoleLoss>, kept: seq<Role>)
    requires |rows| == |kept| && forall i | 0 <= i < |rows| :: rows[i].role == kept[i] && Says(d, elements, rows[i])
    ensures forall loss | loss in rows :: Says(d, elements, loss)
    ensures forall role :: (exists loss :: loss in rows && loss.role == role) <==> role in kept
  {
    hide *;
    forall role | role in kept ensures exists loss :: loss in rows && loss.role == role {
      var k :| 0 <= k < |kept| && kept[k] == role;
      assert rows[k] in rows;
    }
  }

  lemma {:induction false} CostedIs(registry: Registry, subject: Subject, t: Target)
    requires Costed(registry, subject, t)
    ensures t.format in registry && t.roles == Rows(registry[t.format], subject, AllRoles())
  {
    hide Rows;
    hide AllRoles;
  }

  /** The roles the rows are about, in order. */
  lemma {:induction false} RowsOf(d: Declaration, subject: Subject) returns (kept: seq<Role>)
    ensures forall role :: role in kept <==> role in AllRoles() && IsWritten(subject.elements, role)
    ensures var rows := Rows(d, subject, AllRoles());
      |rows| == |kept| && (forall i | 0 <= i < |rows| :: rows[i].role == kept[i] && Says(d, subject.elements, rows[i]))
  {
    hide AllRoles;
    kept := Filter(HasContent(subject), AllRoles());
    FilterHas(HasContent(subject), AllRoles());
    forall role ensures HasContent(subject)(role) <==> IsWritten(subject.elements, role) {
      WrittenHas(subject.elements, role);
    }
    var rows := Rows(d, subject, AllRoles());
    hide Filter;
    hide HasContent;
    hide IsWritten;
    hide Written;
    hide Says;
    hide Row;
    forall i | 0 <= i < |rows| ensures rows[i].role == kept[i] && Says(d, subject.elements, rows[i]) {
      RowSays(d, subject, kept[i]);
    }
  }

  lemma {:induction false} RowSays(d: Declaration, subject: Subject, role: Role)
    ensures Row(d, subject)(role).role == role && Says(d, subject.elements, Row(d, subject)(role))
  {
    DropsMeans(d, subject.elements, role);
    if role in d.roles { MatchesMeans(d.roles[role].condition, subject.elements, role); }
    assert Row(d, subject)(role) == LossOf(SupportFor(d, role), role, Written(subject.elements, role));
    hide Row;
    LossSays(d, subject.elements, role);
  }

  lemma {:induction false} LossSays(d: Declaration, elements: seq<Element>, role: Role)
    requires Drops(SupportFor(d, role), Written(elements, role)) <==> Losable(d, elements, role)
    requires role in d.roles ==>
      (MatchesAny(d.roles[role].condition, Written(elements, role)) <==> HoldsOfSome(d.roles[role].condition, elements, role))
    requires HoldsOfSome(SupportFor(d, role).condition, elements, role) ==> SupportFor(d, role).condition.Some?
    ensures var loss := LossOf(SupportFor(d, role), role, Written(elements, role));
      loss.role == role && Says(d, elements, loss)
  {
    hide TakeSample;
    hide Written;
    hide HoldsOfSome;
    hide Drops;
    hide Losable;
    hide MatchesAny;
  }
}
