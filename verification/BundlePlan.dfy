/** The bundle planner: dependency entries merged into one reference per pack, and the
    list of packs to include (`to_bundle_plan`). */
module BundlePlan {
  import opened Wrappers
  import opened Text

  datatype Resolution = Resolution(sourceRef: string, version: Option<string>, channel: Option<string>)

  datatype Dependency = Dependency(
    packId: string, providerId: Option<string>, sourceRef: string, version: Option<string>, agents: seq<string>)

  datatype PackSpec = PackSpec(
    packId: string, appRoot: string, version: Option<string>, multiAgent: bool, agentIds: seq<string>,
    dependencies: seq<Dependency>)

  datatype RationaleEntry = RationaleEntry(packId: string, rationale: Option<string>)

  datatype GeneratedPack = GeneratedPack(packId: string, resolution: Resolution, agents: seq<string>)

  datatype ProviderPack = ProviderPack(packId: string, providerId: string, resolution: Resolution, agents: seq<string>)

  datatype SupportPack = SupportPack(packId: string, resolution: Resolution, agents: seq<string>,
      rationale: Option<string>)

  datatype PackKind = GeneratedKind | ProviderKind | SupportKind

  datatype Inclusion = Inclusion(
    inclusionId: string, packId: string, kind: PackKind, resolution: Resolution, agents: seq<string>,
    rationale: Option<string>)

  datatype Plan = Plan(
    applicationId: string, multiAgent: bool, generated: GeneratedPack,
    providers: seq<ProviderPack>, supports: seq<SupportPack>, inclusions: seq<Inclusion>)

  // ----- What the merged references must say -----

  predicate Matches(d: Dependency, id: string, provider: bool) {
    d.packId == id && d.providerId.Some? == provider
  }

  // The first entry for a pack decides everything but its agents.
  ghost function FirstEntry(deps: seq<Dependency>, id: string, provider: bool): Option<Dependency> {
    if deps == [] then None
    else
      var before, last := FirstEntry(deps[..|deps| - 1], id, provider), deps[|deps| - 1];
      if before.Some? then before else if Matches(last, id, provider) then Some(last) else None
  }

  // The agents of every entry for a pack.
  ghost function AgentsOf(deps: seq<Dependency>, id: string, provider: bool): set<string> {
    if deps == [] then {}
    else
      var last := deps[|deps| - 1];
      AgentsOf(deps[..|deps| - 1], id, provider) + if Matches(last, id, provider) then Elems(last.agents) else {}
  }

  ghost function PackIds(deps: seq<Dependency>, provider: bool): set<string> {
    if deps == [] then {}
    else
      var last := deps[|deps| - 1];
      PackIds(deps[..|deps| - 1], provider) + if last.providerId.Some? == provider then {last.packId} else {}
  }

  ghost predicate Listed(deps: seq<Dependency>, id: string, provider: bool) {
    exists d :: d in deps && Matches(d, id, provider)
  }

  ghost predicate Named(deps: seq<Dependency>, id: string, provider: bool, agent: string) {
    exists d :: d in deps && Matches(d, id, provider) && agent in d.agents
  }

  lemma ListedFront(deps: seq<Dependency>, id: string, provider: bool)
    requires deps != []
    ensures Listed(deps, id, provider) <==>
      Listed(deps[..|deps| - 1], id, provider) || Matches(deps[|deps| - 1], id, provider)
  {
    assert deps == deps[..|deps| - 1] + [deps[|deps| - 1]];
    if d :| d in deps[..|deps| - 1] && Matches(d, id, provider) { assert d in deps; }
  }

  lemma NamedFront(deps: seq<Dependency>, id: string, provider: bool, agent: string)
    requires deps != []
    ensures Named(deps, id, provider, agent) <==>
      Named(deps[..|deps| - 1], id, provider, agent) ||
          (Matches(deps[|deps| - 1], id, provider) && agent in deps[|deps| - 1].agents)
  {
    assert deps == deps[..|deps| - 1] + [deps[|deps| - 1]];
    if d :| d in deps[..|deps| - 1] && Matches(d, id, provider) && agent in d.agents { assert d in deps; }
  }

  /** The agents are those some entry for the pack names. */
  lemma {:induction false} AgentsAreNamed(deps: seq<Dependency>, id: string, provider: bool, agent: string)
    ensures agent in AgentsOf(deps, id, provider) <==> Named(deps, id, provider, agent)
  {
    if deps != [] {
      AgentsAreNamed(deps[..|deps| - 1], id, provider, agent);
      NamedFront(deps, id, provider, agent);
    }
  }

  /** The packs are those with an entry. */
  lemma {:induction false} PacksAreListed(deps: seq<Dependency>, id: string, provider: bool)
    ensures id in PackIds(deps, provider) <==> Listed(deps, id, provider)
  {
    if deps != [] {
      PacksAreListed(deps[..|deps| - 1], id, provider);
      ListedFront(deps, id, provider);
    }
  }

  /** Exactly the packs with an entry have a first one. */
  lemma {:induction false} FirstEntryListed(deps: seq<Dependency>, id: string, provider: bool)
    ensures id in PackIds(deps, provider) <==> FirstEntry(deps, id, provider).Some?
    ensures FirstEntry(deps, id, provider).Some? ==>
      FirstEntry(deps, id, provider).value in deps && Matches(FirstEntry(deps, id, provider).value, id, provider)
  {
    if deps != [] { FirstEntryListed(deps[..|deps| - 1], id, provider); }
  }

  /** The first entry for a pack is the one no other comes before. */
  lemma {:induction false} FirstEntryIsFirst(deps: seq<Dependency>, id: string, provider: bool, i: nat)
    requires i < |deps| && Matches(deps[i], id, provider)
    requires forall j :: 0 <= j < i ==> !Matches(deps[j], id, provider)
    ensures FirstEntry(deps, id, provider) == Some(deps[i])
  {
    var front := deps[..|deps| - 1];
    if i < |front| {
      FirstEntryIsFirst(front, id, provider, i);
    } else if FirstEntry(front, id, provider).Some? {
      FirstEntryListed(front, id, provider);
      assert false;
    }
  }

  function ResolutionOf(d: Dependency): Resolution {
    Resolution(d.sourceRef, d.version, None)
  }

  function RationaleOf(rationales: map<string, Option<string>>, id: string): Option<string> {
    if id in rationales then rationales[id] else None
  }

  /** One reference per pack: the union of its entries' agents, the rest from the first. */
  ghost function MergedProvider(deps: seq<Dependency>, id: string): ProviderPack
    requires FirstEntry(deps, id, true).Some?
  {
    FirstEntryListed(deps, id, true);
    var first := FirstEntry(deps, id, true).value;
    ProviderPack(id, first.providerId.value, Resolution(first.sourceRef, first.version, None),
                 SortedOf(AgentsOf(deps, id, true)))
  }

  ghost function MergedSupport(deps: seq<Dependency>, rationales: map<string, Option<string>>, id: string): SupportPack
    requires FirstEntry(deps, id, false).Some?
  {
    var first := FirstEntry(deps, id, false).value;
    SupportPack(id, Resolution(first.sourceRef, first.version, None), SortedOf(AgentsOf(deps, id, false)),
                if id in rationales then rationales[id] else None)
  }

  ghost predicate ProviderTable(deps: seq<Dependency>, table: map<string, ProviderPack>) {
    && table.Keys == PackIds(deps, true)
    && forall id :: id in table ==> FirstEntry(deps, id, true).Some? && table[id] == MergedProvider(deps, id)
  }

  ghost predicate SupportTable(
    deps: seq<Dependency>, rationales: map<string, Option<string>>, table: map<string, SupportPack>)
  {
    && table.Keys == PackIds(deps, false)
    && forall id :: id in table ==>
        FirstEntry(deps, id, false).Some? && table[id] == MergedSupport(deps, rationales, id)
  }

  /** The merged references, packs in ascending order of id. */
  ghost predicate ProvidersMerged(deps: seq<Dependency>, ps: seq<ProviderPack>) {
    var ids := SortedOf(PackIds(deps, true));
    |ps| == |ids| && forall i :: 0 <= i < |ids| ==>
        FirstEntry(deps, ids[i], true).Some? && ps[i] == MergedProvider(deps, ids[i])
  }

  ghost predicate SupportsMerged(deps: seq<Dependency>, rationales: map<string, Option<string>>, ps: seq<SupportPack>) {
    var ids := SortedOf(PackIds(deps, false));
    |ps| == |ids| && forall i :: 0 <= i < |ids| ==>
      FirstEntry(deps, ids[i], false).Some? && ps[i] == MergedSupport(deps, rationales, ids[i])
  }

  // ----- The merge -----

  // Extending an agent list and sorting out repeats again lists the larger union.
  lemma ExtendedAgents(before: seq<string>, more: seq<string>, union: set<string>)
    requires before == SortedOf(union)
    ensures SortedUnique(before + more) == SortedOf(union + Elems(more))
  {
    SortedUniqueIsSet(before + more);
    assert Elems(before + more) == Elems(before) + Elems(more);
  }

  // What one entry more changes for a pack.
  lemma OneMore(deps: seq<Dependency>, d: Dependency, id: string, provider: bool)
    ensures AgentsOf(deps + [d], id, provider) ==
      if Matches(d, id, provider) then AgentsOf(deps, id, provider) + Elems(d.agents) else AgentsOf(deps, id, provider)
    ensures PackIds(deps + [d], provider) ==
      PackIds(deps, provider) + if d.providerId.Some? == provider then {d.packId} else {}
    ensures FirstEntry(deps + [d], id, provider) ==
      if FirstEntry(deps, id, provider).Some? then FirstEntry(deps, id, provider)
          else if Matches(d, id, provider) then Some(d) else None
  {
    assert (deps + [d])[..|deps|] == deps;
  }

  lemma {:induction false} NoEntryNoAgents(deps: seq<Dependency>, id: string, provider: bool)
    requires FirstEntry(deps, id, provider).None?
    ensures AgentsOf(deps, id, provider) == {}
  {
    if deps != [] { NoEntryNoAgents(deps[..|deps| - 1], id, provider); }
  }

  // A provider's merged reference after one entry more.
  lemma ProviderMore(deps: seq<Dependency>, d: Dependency, id: string)
    ensures FirstEntry(deps + [d], id, true).Some? <==> FirstEntry(deps, id, true).Some? || Matches(d, id, true)
    ensures FirstEntry(deps, id, true).Some? && !Matches(d, id, true) ==>
      MergedProvider(deps + [d], id) == MergedProvider(deps, id)
    ensures FirstEntry(deps, id, true).Some? && Matches(d, id, true) ==>
      var before := MergedProvider(deps, id);
      MergedProvider(deps + [d], id) == before.(agents := SortedUnique(before.agents + d.agents))
    ensures FirstEntry(deps, id, true).None? && Matches(d, id, true) ==>
      MergedProvider(deps + [d], id) ==
          ProviderPack(id, d.providerId.value, ResolutionOf(d), SortedUnique([] + d.agents))
  {
    OneMore(deps, d, id, true);
    var agents := AgentsOf(deps, id, true);
    ExtendedAgents(SortedOf(agents), d.agents, agents);
    if FirstEntry(deps, id, true).None? { NoEntryNoAgents(deps, id, true); }
  }

  lemma SupportMore(deps: seq<Dependency>, d: Dependency, rationales: map<string, Option<string>>, id: string)
    ensures FirstEntry(deps + [d], id, false).Some? <==> FirstEntry(deps, id, false).Some? || Matches(d, id, false)
    ensures FirstEntry(deps, id, false).Some? && !Matches(d, id, false) ==>
      MergedSupport(deps + [d], rationales, id) == MergedSupport(deps, rationales, id)
    ensures FirstEntry(deps, id, false).Some? && Matches(d, id, false) ==>
      var before := MergedSupport(deps, rationales, id);
      MergedSupport(deps + [d], rationales, id) == before.(agents := SortedUnique(before.agents + d.agents))
    ensures FirstEntry(deps, id, false).None? && Matches(d, id, false) ==>
      MergedSupport(deps + [d], rationales, id) ==
        SupportPack(id, ResolutionOf(d), SortedUnique([] + d.agents), RationaleOf(rationales, id))
  {
    OneMore(deps, d, id, false);
    var agents := AgentsOf(deps, id, false);
    ExtendedAgents(SortedOf(agents), d.agents, agents);
    if FirstEntry(deps, id, false).None? { NoEntryNoAgents(deps, id, false); }
  }

  method MergeProvider(
    ghost deps: seq<Dependency>, d: Dependency, table0: map<string, ProviderPack>)
    returns (table: map<string, ProviderPack>)
    requires d.providerId.Some? && ProviderTable(deps, table0)
    ensures ProviderTable(deps + [d], table)
  {
    hide FirstEntry, AgentsOf, PackIds, MergedProvider;
    var entry := if d.packId in table0 then table0[d.packId]
        else ProviderPack(d.packId, d.providerId.value, ResolutionOf(d), []);
    entry := entry.(agents := entry.agents + d.agents);
    entry := entry.(agents := SortedUnique(entry.agents));
    table := table0[d.packId := entry];
    OneMore(deps, d, d.packId, true);
    FirstEntryListed(deps, d.packId, true);
    forall id | id in table { ProviderMore(deps, d, id); }
  }

  method MergeSupport(
    ghost deps: seq<Dependency>, d: Dependency, rationales: map<string, Option<string>>,
    table0: map<string, SupportPack>)
    returns (table: map<string, SupportPack>)
    requires d.providerId.None? && SupportTable(deps, rationales, table0)
    ensures SupportTable(deps + [d], rationales, table)
  {
    hide FirstEntry, AgentsOf, PackIds, MergedSupport;
    var entry := if d.packId in table0 then table0[d.packId]
        else SupportPack(d.packId, ResolutionOf(d), [], RationaleOf(rationales, d.packId));
    entry := entry.(agents := entry.agents + d.agents);
    entry := entry.(agents := SortedUnique(entry.agents));
    table := table0[d.packId := entry];
    OneMore(deps, d, d.packId, false);
    FirstEntryListed(deps, d.packId, false);
    forall id | id in table { SupportMore(deps, d, rationales, id); }
  }

  lemma OtherKindUntouched(
    deps: seq<Dependency>, d: Dependency, rationales: map<string, Option<string>>,
    providers: map<string, ProviderPack>, supports: map<string, SupportPack>)
    requires ProviderTable(deps, providers) && SupportTable(deps, rationales, supports)
    ensures d.providerId.None? ==> ProviderTable(deps + [d], providers)
    ensures d.providerId.Some? ==> SupportTable(deps + [d], rationales, supports)
  {
    hide FirstEntry, AgentsOf, PackIds, MergedProvider, MergedSupport;
    OneMore(deps, d, d.packId, true);
    OneMore(deps, d, d.packId, false);
    forall id | id in providers { ProviderMore(deps, d, id); }
    forall id | id in supports { SupportMore(deps, d, rationales, id); }
  }

  /** Merges the dependency entries into the two tables. */
  method MergeTables(deps: seq<Dependency>, rationales: map<string, Option<string>>)
    returns (providers: map<string, ProviderPack>, supports: map<string, SupportPack>)
    ensures ProviderTable(deps, providers) && SupportTable(deps, rationales, supports)
  {
    providers, supports := map[], map[];
    for i := 0 to |deps|
      invariant ProviderTable(deps[..i], providers) && SupportTable(deps[..i], rationales, supports)
    {
      assert deps[..i + 1] == deps[..i] + [deps[i]];
      OtherKindUntouched(deps[..i], deps[i], rationales, providers, supports);
      if deps[i].providerId.Some? {
        providers := MergeProvider(deps[..i], deps[i], providers);
      } else {
        supports := MergeSupport(deps[..i], deps[i], rationales, supports);
      }
    }
    assert deps[..|deps|] == deps;
  }

  /** Merges the entries and lists each table in the order of its keys. */
  method MergeDependencies(deps: seq<Dependency>, rationales: map<string, Option<string>>)
    returns (providers: seq<ProviderPack>, supports: seq<SupportPack>)
    ensures ProvidersMerged(deps, providers) && SupportsMerged(deps, rationales, supports)
  {
    var providersById, supportsById := MergeTables(deps, rationales);
    var providerKeys, supportKeys := SortedOf(providersById.Keys), SortedOf(supportsById.Keys);
    assert forall i :: 0 <= i < |providerKeys| ==> providerKeys[i] in Elems(providerKeys);
    assert forall i :: 0 <= i < |supportKeys| ==> supportKeys[i] in Elems(supportKeys);
    providers := seq(|providerKeys|, i requires 0 <= i < |providerKeys| => providersById[providerKeys[i]]);
    supports := seq(|supportKeys|, i requires 0 <= i < |supportKeys| => supportsById[supportKeys[i]]);
  }

  // ----- The order of the entries does not matter -----

  /** Entries for one pack differ at most in the agents they name. */
  ghost predicate EntriesAgree(deps: seq<Dependency>) {
    forall d, e :: d in deps && e in deps && d.packId == e.packId && d.providerId.Some? == e.providerId.Some? ==>
      (d.providerId, d.sourceRef, d.version) == (e.providerId, e.sourceRef, e.version)
  }

  lemma SameAgents(a: seq<Dependency>, b: seq<Dependency>, id: string, provider: bool)
    requires forall d :: d in a ==> d in b
    ensures AgentsOf(a, id, provider) <= AgentsOf(b, id, provider)
  {
    forall agent | agent in AgentsOf(a, id, provider) ensures agent in AgentsOf(b, id, provider) {
      AgentsAreNamed(a, id, provider, agent);
      AgentsAreNamed(b, id, provider, agent);
    }
  }

  lemma SamePacks(a: seq<Dependency>, b: seq<Dependency>, provider: bool)
    requires forall d :: d in a ==> d in b
    ensures PackIds(a, provider) <= PackIds(b, provider)
  {
    forall id | id in PackIds(a, provider) ensures id in PackIds(b, provider) {
      PacksAreListed(a, id, provider);
      PacksAreListed(b, id, provider);
    }
  }

  lemma SameEntries(a: seq<Dependency>, b: seq<Dependency>, provider: bool)
    requires Elems(a) == Elems(b)
    ensures PackIds(a, provider) == PackIds(b, provider)
    ensures forall id :: AgentsOf(a, id, provider) == AgentsOf(b, id, provider)
  {
    assert forall d :: (d in a <==> d in Elems(a)) && (d in b <==> d in Elems(b));
    SamePacks(a, b, provider);
    SamePacks(b, a, provider);
    forall id ensures AgentsOf(a, id, provider) == AgentsOf(b, id, provider) {
      SameAgents(a, b, id, provider);
      SameAgents(b, a, id, provider);
    }
  }

  lemma SameFirst(a: seq<Dependency>, b: seq<Dependency>, id: string, provider: bool)
    requires Elems(a) == Elems(b) && EntriesAgree(a)
    requires FirstEntry(a, id, provider).Some? && FirstEntry(b, id, provider).Some?
    ensures var x, y := FirstEntry(a, id, provider).value, FirstEntry(b, id, provider).value;
      (x.providerId, x.sourceRef, x.version) == (y.providerId, y.sourceRef, y.version)
  {
    FirstEntryListed(a, id, provider);
    FirstEntryListed(b, id, provider);
    assert FirstEntry(b, id, provider).value in Elems(a);
  }

  /** When a pack's entries agree but for their agents, neither their order nor their
      repetition changes the merged references. */
  lemma MergeOrderIrrelevant(
    a: seq<Dependency>, b: seq<Dependency>, rationales: map<string, Option<string>>,
    pa: seq<ProviderPack>, pb: seq<ProviderPack>, sa: seq<SupportPack>, sb: seq<SupportPack>)
    requires Elems(a) == Elems(b) && EntriesAgree(a)
    ensures ProvidersMerged(a, pa) && ProvidersMerged(b, pb) ==> pa == pb
    ensures SupportsMerged(a, rationales, sa) && SupportsMerged(b, rationales, sb) ==> sa == sb
  {
    hide FirstEntry, AgentsOf, PackIds;
    SameEntries(a, b, true);
    SameEntries(a, b, false);
    var ids, ids' := SortedOf(PackIds(a, true)), SortedOf(PackIds(a, false));
    if ProvidersMerged(a, pa) && ProvidersMerged(b, pb) {
      forall i | 0 <= i < |ids| ensures pa[i] == pb[i] { SameFirst(a, b, ids[i], true); }
    }
    if SupportsMerged(a, rationales, sa) && SupportsMerged(b, rationales, sb) {
      forall i | 0 <= i < |ids'| ensures sa[i] == sb[i] { SameFirst(a, b, ids'[i], false); }
    }
  }

  // ----- The inclusions and the plan -----

  function GeneratedInclusion(g: GeneratedPack): Inclusion {
    Inclusion("include.generated_app_pack", g.packId, GeneratedKind, g.resolution, g.agents,
        Some("Generated application pack"))
  }

  function ProviderInclusion(p: ProviderPack): Inclusion {
    Inclusion("include.provider." + p.packId, p.packId, ProviderKind, p.resolution, p.agents,
              Some("Provider dependency `" + p.providerId + "`"))
  }

  function SupportInclusion(p: SupportPack): Inclusion {
    Inclusion("include.support." + p.packId, p.packId, SupportKind, p.resolution, p.agents, p.rationale)
  }

  function Inclusions(g: GeneratedPack, ps: seq<ProviderPack>, ss: seq<SupportPack>): seq<Inclusion> {
    [GeneratedInclusion(g)]
    + seq(|ps|, i requires 0 <= i < |ps| => ProviderInclusion(ps[i]))
    + seq(|ss|, i requires 0 <= i < |ss| => SupportInclusion(ss[i]))
  }

  ghost predicate DistinctInclusions(incs: seq<Inclusion>) {
    forall i, j :: 0 <= i < j < |incs| ==> incs[i].inclusionId != incs[j].inclusionId
  }

  lemma InclusionIdsApart(a: string, b: string)
    ensures "include.generated_app_pack" != "include.provider." + a
    ensures "include.generated_app_pack" != "include.support." + a
    ensures "include.provider." + a != "include.support." + b
    ensures "include.provider." + a == "include.provider." + b ==> a == b
    ensures "include.support." + a == "include.support." + b ==> a == b
  {
    var pa, pb, sa, sb := "include.provider." + a, "include.provider." + b, "include.support." + a,
        "include.support." + b;
    assert "include.generated_app_pack"[8] == 'g' && pa[8] == 'p' && sa[8] == 's' && sb[8] == 's';
    assert pa[17..] == a && pb[17..] == b && sa[16..] == a && sb[16..] == b;
  }

  lemma MergedIds(
    deps: seq<Dependency>, rationales: map<string, Option<string>>, ps: seq<ProviderPack>, ss: seq<SupportPack>)
    requires ProvidersMerged(deps, ps) && SupportsMerged(deps, rationales, ss)
    ensures forall i, j :: 0 <= i < j < |ps| ==> StrLt(ps[i].packId, ps[j].packId)
    ensures forall i, j :: 0 <= i < j < |ss| ==> StrLt(ss[i].packId, ss[j].packId)
  {
  }

  /** No two inclusions of a plan share an id. */
  lemma InclusionsDistinct(g: GeneratedPack, ps: seq<ProviderPack>, ss: seq<SupportPack>)
    requires forall i, j :: 0 <= i < j < |ps| ==> ps[i].packId != ps[j].packId
    requires forall i, j :: 0 <= i < j < |ss| ==> ss[i].packId != ss[j].packId
    ensures DistinctInclusions(Inclusions(g, ps, ss))
  {
    var incs := Inclusions(g, ps, ss);
    forall i, j | 0 <= i < j < |incs| ensures incs[i].inclusionId != incs[j].inclusionId {
      InclusionIdsApart(incs[i].packId, incs[j].packId);
      InclusionIdsApart(incs[j].packId, incs[i].packId);
      assert incs[j] == if j <= |ps| then ProviderInclusion(ps[j - 1]) else SupportInclusion(ss[j - 1 - |ps|]);
      assert i > 0 ==> incs[i] == if i <= |ps| then ProviderInclusion(ps[i - 1])
          else SupportInclusion(ss[i - 1 - |ps|]);
    }
  }

  // Rationales by pack; a repeated pack keeps the last.
  function RationaleTable(entries: seq<RationaleEntry>): map<string, Option<string>> {
    if entries == [] then map[]
    else
      var last := entries[|entries| - 1];
      RationaleTable(entries[..|entries| - 1])[last.packId := last.rationale]
  }

  /** A pack's rationale is the one its last entry gives. */
  lemma {:induction false} LastRationaleCounts(entries: seq<RationaleEntry>, id: string)
    ensures id in RationaleTable(entries) <==> exists i :: 0 <= i < |entries| && entries[i].packId == id
    ensures forall i ::
      0 <= i < |entries| && entries[i].packId == id && (forall j :: i < j < |entries| ==> entries[j].packId != id) ==>
        id in RationaleTable(entries) && RationaleTable(entries)[id] == entries[i].rationale
  {
    if entries != [] {
      var front := entries[..|entries| - 1];
      LastRationaleCounts(front, id);
      assert forall i :: 0 <= i < |front| ==> front[i] == entries[i];
    }
  }

  /** The inclusions of a plan: the application, then its providers, then its support
      packs, each mirroring its reference. */
  ghost predicate Mirror(g: GeneratedPack, ps: seq<ProviderPack>, ss: seq<SupportPack>, incs: seq<Inclusion>) {
    && |incs| == 1 + |ps| + |ss|
    && incs[0] == Inclusion("include.generated_app_pack", g.packId, GeneratedKind, g.resolution, g.agents,
                            Some("Generated application pack"))
    && (forall i :: 0 <= i < |ps| ==>
          incs[1 + i] == Inclusion("include.provider." + ps[i].packId, ps[i].packId, ProviderKind, ps[i].resolution,
                                   ps[i].agents, Some("Provider dependency `" + ps[i].providerId + "`")))
    && (forall i :: 0 <= i < |ss| ==>
          incs[1 + |ps| + i] == Inclusion("include.support." + ss[i].packId, ss[i].packId, SupportKind,
                                          ss[i].resolution, ss[i].agents, ss[i].rationale))
  }

  lemma InclusionsMirror(g: GeneratedPack, ps: seq<ProviderPack>, ss: seq<SupportPack>, incs: seq<Inclusion>)
    ensures Mirror(g, ps, ss, incs) <==> incs == Inclusions(g, ps, ss)
  {
    var all := Inclusions(g, ps, ss);
    assert Mirror(g, ps, ss, all);
    if Mirror(g, ps, ss, incs) {
      forall i | 0 <= i < |all| ensures incs[i] == all[i] {
        if 0 < i <= |ps| {
          assert incs[1 + (i - 1)] == all[1 + (i - 1)];
        } else if i > |ps| {
          assert incs[1 + |ps| + (i - 1 - |ps|)] == all[1 + |ps| + (i - 1 - |ps|)];
        }
      }
    }
  }

  /** What the plan for a specification must be. */
  ghost predicate PlanFor(
    spec: PackSpec, rationales: seq<RationaleEntry>, appSource: string, applicationId: string, plan: Plan)
  {
    && plan.applicationId == applicationId && plan.multiAgent == spec.multiAgent
    && plan.generated ==
        GeneratedPack(spec.packId, Resolution(appSource, spec.version, None), SortedOf(Elems(spec.agentIds)))
    && ProvidersMerged(spec.dependencies, plan.providers)
    && SupportsMerged(spec.dependencies, RationaleTable(rationales), plan.supports)
    && Mirror(plan.generated, plan.providers, plan.supports, plan.inclusions)
  }

  method CollectRationales(entries: seq<RationaleEntry>) returns (table: map<string, Option<string>>)
    ensures table == RationaleTable(entries)
  {
    table := map[];
    for i := 0 to |entries|
      invariant table == RationaleTable(entries[..i])
    {
      assert entries[..i + 1][..i] == entries[..i];
      table := table[entries[i].packId := entries[i].rationale];
    }
    assert entries[..|entries|] == entries;
  }

  method ListInclusions(
    g: GeneratedPack, ps: seq<ProviderPack>, ss: seq<SupportPack>)
    returns (inclusions: seq<Inclusion>)
    ensures inclusions == Inclusions(g, ps, ss)
  {
    inclusions := [GeneratedInclusion(g)];
    for i := 0 to |ps|
      invariant inclusions == Inclusions(g, ps[..i], [])
    {
      inclusions := inclusions + [ProviderInclusion(ps[i])];
    }
    assert ps[..|ps|] == ps;
    for i := 0 to |ss|
      invariant inclusions == Inclusions(g, ps, ss[..i])
    {
      inclusions := inclusions + [SupportInclusion(ss[i])];
    }
    assert ss[..|ss|] == ss;
  }

  /** The plan for a resolved specification. `fromRaw` reads a source reference. */
  method ToBundlePlan(
    spec: PackSpec, rationales: seq<RationaleEntry>, applicationId: string, fromRaw: string -> Result<string, string>)
    returns (r: Result<Plan, string>)
    ensures r.Ok? <==> fromRaw("./" + spec.appRoot).Ok?
    ensures r.Err? ==> r.error == fromRaw("./" + spec.appRoot).error
    ensures r.Ok? ==> PlanFor(spec, rationales, fromRaw("./" + spec.appRoot).value, applicationId, r.value)
    ensures r.Ok? ==> DistinctInclusions(r.value.inclusions)
  {
    var source := fromRaw("./" + spec.appRoot);
    if source.Err? { return Err(source.error); }
    SortedUniqueIsSet(spec.agentIds);
    var generated :=
        GeneratedPack(spec.packId, Resolution(source.value, spec.version, None), SortedUnique(spec.agentIds));
    var table := CollectRationales(rationales);
    var providers, supports := MergeDependencies(spec.dependencies, table);
    var inclusions := ListInclusions(generated, providers, supports);
    MergedIds(spec.dependencies, table, providers, supports);
    InclusionsDistinct(generated, providers, supports);
    InclusionsMirror(generated, providers, supports, inclusions);
    return Ok(Plan(applicationId, spec.multiAgent, generated, providers, supports, inclusions));
  }

  /** Two orders of agreeing dependency entries give one and the same plan. */
  lemma PlanOrderIrrelevant(
    spec: PackSpec, deps: seq<Dependency>, rationales: seq<RationaleEntry>, appSource: string, applicationId: string,
    a: Plan, b: Plan)
    requires Elems(spec.dependencies) == Elems(deps) && EntriesAgree(deps)
    requires PlanFor(spec, rationales, appSource, applicationId, a)
    requires PlanFor(spec.(dependencies := deps), rationales, appSource, applicationId, b)
    ensures a == b
  {
    MergeOrderIrrelevant(deps, spec.dependencies, RationaleTable(rationales), b.providers, a.providers, b.supports,
        a.supports);
    InclusionsMirror(a.generated, a.providers, a.supports, a.inclusions);
    InclusionsMirror(b.generated, b.providers, b.supports, b.inclusions);
  }
}
