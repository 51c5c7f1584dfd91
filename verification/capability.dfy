/** The download formats an asset is offered, and what each would cost it. */
module Capability {
  import opened Sequences
  import opened Blocks
  import opened Catalog
  import opened Sorting

  datatype App = App(id: string, opens: seq<string>)

  function Apps(): seq<App> {
    [App("sillytavern", ["chara_card_v2", "chara_card_v3", "lorebook_sillytavern",
                         "preset_sillytavern", "theme_sillytavern"]),
     App("risu", ["chara_card_v2", "chara_card_v3", "charx", "lorebook_sillytavern"]),
     App("lumiverse", ["chara_card_v2", "chara_card_v3", "lorebook", "preset_lumiverse",
                       "theme_lumiverse", "pack_lumiverse"])]
  }

  datatype Grade = FullSupport | PartialSupport | NoSupport | Ungraded

  datatype Condition = Condition(description: string, matches: Option<Content -> bool>)

  datatype Support = Support(
    grade: Grade, condition: Option<Condition>, dropWhen: Option<Condition>, destination: string)

  datatype HeaderField = AssetVersion | Blurb | CreditedAuthor | Name | Nickname

  datatype Declaration = Declaration(
    id: string, kind: Kind, writes: bool, testedOrigins: seq<string>, crossPlatform: bool,
    header: set<HeaderField>, roles: map<Role, Support>)

  type Registry = map<string, Declaration>

  ghost predicate RegistryOk(registry: Registry) {
    forall id | id in registry :: registry[id].id == id
  }

  datatype Subject = Subject(kind: Kind, origin: string, elements: seq<Element>, allowed: seq<string>)

  datatype Verdict = Carried | Reduced | Dropped

  /** A glance across the elements carrying a role: the first few openings and
      pictures, and how many things they hold in all. */
  datatype Sample = Sample(texts: seq<string>, images: seq<Id>, count: nat)

  const SAMPLE_ITEMS := 4

  datatype RoleLoss = RoleLoss(
    role: Role, verdict: Verdict, reason: string, destination: string, sample: Sample)

  datatype Target = Target(format: string, recommended: bool, roles: seq<RoleLoss>)

  const ORIGIN_ILLARIN := "illarin"

  function OriginOf(subject: Subject): string {
    if subject.origin == "" then ORIGIN_ILLARIN else subject.origin
  }

  /** The roles content may carry, in report order. */
  function AllRoles(): seq<Role> {
    [Description, Personality, Scenario, Greetings, GroupGreetings, ExampleDialogue, SystemPrompt,
     PostHistoryInstructions, CreatorNotes, GalleryImages, ExpressionImages, LorebookEntries,
     PromptFragments, PromptVariables, SamplerSettings, CompletionSettings, AdvancedSettings,
     PromptNudges, RegexScripts, ThemeTokens, ThemeControls, Stylesheets, PackItems]
  }

  function RequiredRoles(kind: Kind): seq<Role> {
    match kind
    case CharacterKind => [Description, Greetings]
    case LorebookKind => [LorebookEntries]
    case PresetKind => [PromptFragments]
    case ThemeKind => [ThemeTokens]
    case PackKind => [PackItems]
    case UnknownKind => []
  }

  // ---- one role against one format ----------------------------------------

  function ContentOf(element: Element): Content { element.content }

  function Carries(role: Role): Element -> bool {
    (e: Element) => e.role == role && !e.content.empty
  }

  function Written(elements: seq<Element>, role: Role): seq<Content> {
    Map(ContentOf, Filter(Carries(role), elements))
  }

  predicate MatchesAny(condition: Option<Condition>, written: seq<Content>) {
    && condition.Some? && condition.value.matches.Some?
    && exists i :: 0 <= i < |written| && condition.value.matches.value(written[i])
  }

  function SupportFor(d: Declaration, role: Role): Support {
    if role in d.roles then d.roles[role] else Support(Ungraded, None, None, "")
  }

  predicate Drops(support: Support, written: seq<Content>) {
    support.grade == NoSupport || MatchesAny(support.dropWhen, written)
  }

  predicate Reduces(support: Support, written: seq<Content>) {
    support.grade == PartialSupport && MatchesAny(support.condition, written)
  }

  function Pictured(written: seq<Content>): seq<Id> {
    if written == [] then [] else written[0].pictures + Pictured(written[1..])
  }

  function Texts(written: seq<Content>): seq<string> {
    if written == [] then [] else written[0].texts + Texts(written[1..])
  }

  function Things(written: seq<Content>): nat {
    if written == [] then 0 else written[0].count + Things(written[1..])
  }

  function TakeSample(written: seq<Content>): Sample {
    Sample(FirstFour(Texts(written)), FirstFour(Pictured(written)), Things(written))
  }

  /** The row a report holds for a role with content. */
  function LossOf(support: Support, role: Role, written: seq<Content>): RoleLoss {
    if Drops(support, written) then RoleLoss(role, Dropped, "", "", TakeSample(written))
    else if Reduces(support, written)
    then RoleLoss(role, Reduced, support.condition.value.description, support.destination, TakeSample(written))
    else RoleLoss(role, Carried, "", support.destination, TakeSample(written))
  }

  function Report(d: Declaration, subject: Subject, roles: seq<Role>): Option<seq<RoleLoss>> {
    if roles == [] then Some([])
    else
      var role := roles[|roles| - 1];
      match Report(d, subject, roles[..|roles| - 1])
      case None => None
      case Some(rows) =>
        var written := Written(subject.elements, role);
        if written == [] then Some(rows)
        else
          var loss := LossOf(SupportFor(d, role), role, written);
          if loss.verdict == Dropped && role in RequiredRoles(subject.kind) then None
          else Some(rows + [loss])
  }

  predicate Eligible(d: Declaration, subject: Subject) {
    && d.writes && d.kind == subject.kind
    && OriginOf(subject) in d.testedOrigins
    && (d.crossPlatform ==> d.id in subject.allowed)
  }

  function OfferedFrom(registry: Registry, ids: seq<string>, subject: Subject): seq<Target>
    requires forall id | id in ids :: id in registry
  {
    if ids == [] then []
    else
      var d := registry[ids[|ids| - 1]];
      var before := OfferedFrom(registry, ids[..|ids| - 1], subject);
      if !Eligible(d, subject) then before
      else
        match Report(d, subject, AllRoles())
        case None => before
        case Some(rows) => before + [Target(d.id, false, rows)]
  }

  // ---- the recommendation -------------------------------------------------

  function ReachIn(apps: seq<App>, format: string): nat {
    if apps == [] then 0
    else (if format in apps[0].opens then 1 else 0) + ReachIn(apps[1..], format)
  }

  function Reach(format: string): nat { ReachIn(Apps(), format) }

  function LossCount(roles: seq<RoleLoss>): nat {
    if roles == [] then 0
    else (if roles[0].verdict != Carried then 1 else 0) + LossCount(roles[1..])
  }

  function WritableRoles(registry: Registry, format: string): nat {
    if format !in registry then 0
    else |set role | role in registry[format].roles && registry[format].roles[role].grade != NoSupport|
  }

  predicate Outranks(registry: Registry, candidate: Target, holder: Target) {
    if Reach(candidate.format) != Reach(holder.format) then Reach(candidate.format) > Reach(holder.format)
    else if LossCount(candidate.roles) != LossCount(holder.roles)
    then LossCount(candidate.roles) < LossCount(holder.roles)
    else if WritableRoles(registry, candidate.format) != WritableRoles(registry, holder.format)
    then WritableRoles(registry, candidate.format) > WritableRoles(registry, holder.format)
    else !TextLe(holder.format, candidate.format)
  }

  /** The best of the first n. */
  function Best(registry: Registry, targets: seq<Target>, n: nat): (best: Option<nat>)
    requires n <= |targets|
    ensures best.Some? <==> 0 < n
    ensures best.Some? ==> best.value < n
  {
    if n == 0 then None
    else
      match Best(registry, targets, n - 1)
      case None => Some(n - 1)
      case Some(b) => if Outranks(registry, targets[n - 1], targets[b]) then Some(n - 1) else Some(b)
  }

  function Recommended(registry: Registry, targets: seq<Target>): seq<Target> {
    match Best(registry, targets, |targets|)
    case None => targets
    case Some(b) => targets[b := targets[b].(recommended := true)]
  }

  ghost function Listed<T(!new)>(keys: set<T>): (s: seq<T>)
    ensures forall x :: x in s <==> x in keys
    ensures Distinct(s)
  {
    if keys == {} then []
    else
      var x :| x in keys;
      [x] + Listed(keys - {x})
  }

  /** The ids of a registry in ascending order. */
  ghost function SortedIds(registry: Registry): (ids: seq<string>)
    ensures forall id :: id in ids <==> id in registry
  {
    SortBag(TextLe, Listed(registry.Keys));
    var ids := Sort(TextLe, Listed(registry.Keys));
    assert forall id :: id in ids <==> id in multiset(ids);
    assert forall id :: id in Listed(registry.Keys) <==> id in multiset(Listed(registry.Keys));
    ids
  }

  /** The offered formats with their costs, one of them recommended. */
  ghost function Offered(registry: Registry, subject: Subject): seq<Target> {
    Recommended(registry, OfferedFrom(registry, SortedIds(registry), subject))
  }

  // ---- the same as the loops that compute it ------------------------------

  method WrittenContent(elements: seq<Element>, role: Role) returns (written: seq<Content>)
    ensures written == Written(elements, role)
  {
    written := [];
    for i := 0 to |elements|
      invariant written == Written(elements[..i], role)
    {
      var element := elements[i];
      assert elements[..i + 1] == elements[..i] + [element];
      FilterConcat(Carries(role), elements[..i], [element]);
      assert Filter(Carries(role), [element]) == if Carries(role)(element) then [element] else [];
      if element.role != role || element.content.empty { continue; }
      written := written + [element.content];
    }
    assert elements[..|elements|] == elements;
  }

  method MatchesAnyOf(condition: Option<Condition>, written: seq<Content>) returns (matches: bool)
    ensures matches == MatchesAny(condition, written)
  {
    if condition.None? || condition.value.matches.None? { return false; }
    for i := 0 to |written|
      invariant forall k | 0 <= k < i :: !condition.value.matches.value(written[k])
    {
      if condition.value.matches.value(written[i]) { return true; }
    }
    return false;
  }

  lemma {:induction false} PicturedConcat(s: seq<Content>, t: seq<Content>)
    ensures Pictured(s + t) == Pictured(s) + Pictured(t)
  {
    if s == [] {
      assert s + t == t;
    } else {
      PicturedConcat(s[1..], t);
      assert (s + t)[1..] == s[1..] + t && (s + t)[0] == s[0];
    }
  }

  lemma {:induction false} TextsConcat(s: seq<Content>, t: seq<Content>)
    ensures Texts(s + t) == Texts(s) + Texts(t)
  {
    if s == [] {
      assert s + t == t;
    } else {
      TextsConcat(s[1..], t);
      assert (s + t)[1..] == s[1..] + t && (s + t)[0] == s[0];
    }
  }

  lemma {:induction false} ThingsConcat(s: seq<Content>, t: seq<Content>)
    ensures Things(s + t) == Things(s) + Things(t)
  {
    if s == [] {
      assert s + t == t;
    } else {
      ThingsConcat(s[1..], t);
      assert (s + t)[1..] == s[1..] + t && (s + t)[0] == s[0];
    }
  }

  function FirstFour<T>(things: seq<T>): seq<T> {
    if |things| <= SAMPLE_ITEMS then things else things[..SAMPLE_ITEMS]
  }

  /** Takes more things into a sample while it has room. */
  method AddToSample<T>(sample: seq<T>, things: seq<T>, ghost before: seq<T>) returns (merged: seq<T>)
    requires sample == FirstFour(before)
    ensures merged == FirstFour(before + things)
  {
    merged := sample;
    assert before + things[..0] == before;
    for k := 0 to |things|
      invariant merged == FirstFour(before + things[..k])
    {
      assert before + things[..k + 1] == (before + things[..k]) + [things[k]];
      if |merged| < SAMPLE_ITEMS { merged := merged + [things[k]]; }
    }
    assert things[..|things|] == things;
  }

  lemma {:induction false} SampleNext(written: seq<Content>, i: nat)
    requires i < |written|
    ensures var before, after := written[..i], written[..i + 1];
      && Texts(after) == Texts(before) + written[i].texts
      && Pictured(after) == Pictured(before) + written[i].pictures
      && Things(after) == Things(before) + written[i].count
  {
    assert written[..i + 1] == written[..i] + [written[i]];
    PicturedConcat(written[..i], [written[i]]);
    TextsConcat(written[..i], [written[i]]);
    ThingsConcat(written[..i], [written[i]]);
    var one := [written[i]];
    assert one[1..] == [];
    assert Texts(one) == one[0].texts + Texts(one[1..]);
    assert Pictured(one) == one[0].pictures + Pictured(one[1..]);
  }

  method Sampled(written: seq<Content>) returns (sample: Sample)
    ensures sample == TakeSample(written)
  {
    var texts: seq<string>, images: seq<Id>, count := [], [], 0;
    for i := 0 to |written|
      invariant texts == FirstFour(Texts(written[..i])) && images == FirstFour(Pictured(written[..i]))
      invariant count == Things(written[..i])
    {
      SampleNext(written, i);
      hide FirstFour;
      texts := AddToSample(texts, written[i].texts, Texts(written[..i]));
      images := AddToSample(images, written[i].pictures, Pictured(written[..i]));
      count := count + written[i].count;
    }
    assert written[..|written|] == written;
    return Sample(texts, images, count);
  }

  lemma {:induction false} ReportStays(d: Declaration, subject: Subject, roles: seq<Role>, n: nat)
    requires n <= |roles| && Report(d, subject, roles[..n]).None?
    ensures Report(d, subject, roles).None?
    decreases |roles|
  {
    if n < |roles| {
      assert roles[..|roles| - 1][..n] == roles[..n];
      ReportStays(d, subject, roles[..|roles| - 1], n);
    } else {
      assert roles[..n] == roles;
    }
  }

  lemma {:induction false} ReportNext(d: Declaration, subject: Subject, roles: seq<Role>, i: nat)
    requires i < |roles|
    ensures Report(d, subject, roles[..i + 1]) ==
      match Report(d, subject, roles[..i])
      case None => None
      case Some(rows) =>
        var written := Written(subject.elements, roles[i]);
        if written == [] then Some(rows)
        else
          var loss := LossOf(SupportFor(d, roles[i]), roles[i], written);
          if loss.verdict == Dropped && roles[i] in RequiredRoles(subject.kind) then None
          else Some(rows + [loss])
  {
    assert roles[..i + 1][..i] == roles[..i];
  }

  /** One report: None where a required role would be dropped. */
  method LossReport(d: Declaration, subject: Subject) returns (report: Option<seq<RoleLoss>>)
    ensures report == Report(d, subject, AllRoles())
  {
    var roles := AllRoles();
    var required := RequiredRoles(subject.kind);
    var rows: seq<RoleLoss> := [];
    hide AllRoles;
    assert Report(d, subject, roles[..0]) == Some(rows);
    hide Report;
    for i := 0 to |roles|
      invariant Report(d, subject, roles[..i]) == Some(rows)
    {
      var role := roles[i];
      ReportNext(d, subject, roles, i);
      var written := WrittenContent(subject.elements, role);
      if |written| == 0 { continue; }
      var support := SupportFor(d, role);
      var sample := Sampled(written);
      var loss := RoleLoss(role, Carried, "", support.destination, sample);
      var drops := MatchesAnyOf(support.dropWhen, written);
      if support.grade == NoSupport || drops {
        loss := loss.(verdict := Dropped, destination := "");
      } else if support.grade == PartialSupport {
        var reduces := MatchesAnyOf(support.condition, written);
        if reduces {
          loss := loss.(verdict := Reduced, reason := support.condition.value.description);
        }
      }
      if loss.verdict == Dropped && role in required {
        ReportStays(d, subject, roles, i + 1);
        return None;
      }
      rows := rows + [loss];
    }
    assert roles[..|roles|] == roles;
    return Some(rows);
  }

  /** Marks the best target: reach, then fewer losses, then wider support. */
  method Recommend(registry: Registry, targets: seq<Target>) returns (marked: seq<Target>)
    ensures marked == Recommended(registry, targets)
  {
    var best := -1;
    for i := 0 to |targets|
      invariant -1 <= best < i
      invariant Best(registry, targets, i) == if best < 0 then None else Some(best)
    {
      if best < 0 || Outranks(registry, targets[i], targets[best]) { best := i; }
    }
    marked := targets;
    if best >= 0 { marked := targets[best := targets[best].(recommended := true)]; }
  }

  method FormatIds(registry: Registry) returns (ids: seq<string>)
    ensures ids == SortedIds(registry)
  {
    ids := [];
    var left := registry.Keys;
    while left != {}
      invariant left <= registry.Keys
      invariant forall id :: id in ids <==> id in registry && id !in left
      invariant Distinct(ids)
      decreases |left|
    {
      var id :| id in left;
      left := left - {id};
      ids := ids + [id];
    }
    ghost var listed := Listed(registry.Keys);
    SameMembersPermute(ids, listed);
    TextIsTotal();
    TextTells(ids);
    SortPermuted(TextLe, ids, listed);
    ids := Sort(TextLe, ids);
  }

  lemma {:induction false} SameMembersPermute<T(!new)>(s: seq<T>, t: seq<T>)
    requires Distinct(s) && Distinct(t) && forall x :: x in s <==> x in t
    ensures multiset(s) == multiset(t)
  {
    DistinctAsBag(s);
    DistinctAsBag(t);
    forall x ensures multiset(s)[x] == multiset(t)[x] {
      assert x in s <==> x in multiset(s);
      assert x in t <==> x in multiset(t);
    }
  }

  lemma {:induction false} OfferedNext(registry: Registry, ids: seq<string>, subject: Subject, i: nat)
    requires i < |ids| && forall id | id in ids :: id in registry
    ensures OfferedFrom(registry, ids[..i + 1], subject) ==
      var d := registry[ids[i]];
      var before := OfferedFrom(registry, ids[..i], subject);
      if !Eligible(d, subject) then before
      else
        match Report(d, subject, AllRoles())
        case None => before
        case Some(rows) => before + [Target(d.id, false, rows)]
  {
    assert ids[..i + 1][..i] == ids[..i];
    hide Report;
  }

  method OfferedTargets(registry: Registry, subject: Subject) returns (targets: seq<Target>)
    ensures targets == Offered(registry, subject)
  {
    var ids := FormatIds(registry);
    var offered: seq<Target> := [];
    assert OfferedFrom(registry, ids[..0], subject) == offered;
    hide OfferedFrom;
    hide Report;
    for i := 0 to |ids|
      invariant offered == OfferedFrom(registry, ids[..i], subject)
    {
      assert ids[i] in ids;
      var declaration := registry[ids[i]];
      OfferedNext(registry, ids, subject, i);
      if !declaration.writes || declaration.kind != subject.kind { continue; }
      if OriginOf(subject) !in declaration.testedOrigins { continue; }
      if declaration.crossPlatform && declaration.id !in subject.allowed { continue; }
      var roles := LossReport(declaration, subject);
      if roles.None? { continue; }
      offered := offered + [Target(declaration.id, false, roles.value)];
    }
    assert ids[..|ids|] == ids;
    targets := Recommend(registry, offered);
  }
}
