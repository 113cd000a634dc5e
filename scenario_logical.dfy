/**
 * Logical-operator groups inside a `group`
 * (tests/unit/test_ystruct.py:268-339): `and`/`or` resolve as mapped
 * overrides over the member types their own handler declares, and their
 * `settings` keep document order.
 */
module LogicalScenarios {
  import opened Wrappers
  import opened Document
  import opened Registry
  import opened Paths
  import opened Overrides
  import opened OverrideAccess
  import opened Sections
  import opened BuildSteps
  import opened ListScenario

  const P := "mgtest.item1.group"

  lemma GroupPath()
    ensures Dot(Dot("mgtest", "item1"), "group") == P
  {
    assert Dot("mgtest", "item1") == "mgtest" + "." + "item1";
    assert Dot("mgtest.item1", "group") == "mgtest.item1" + "." + "group";
  }

  lemma GroupDots()
    ensures Dot(P, "and") == "mgtest.item1.group.and"
    ensures Dot(P, "or") == "mgtest.item1.group.or"
    ensures Dot(P, "settings") == "mgtest.item1.group.settings"
  {
    assert Dot(P, "and") == P + "." + "and";
    assert Dot(P, "or") == P + "." + "or";
    assert Dot(P, "settings") == P + "." + "settings";
  }

  lemma OpDots()
    ensures Dot("mgtest.item1.group.and", "settings") == "mgtest.item1.group.and.settings"
    ensures Dot("mgtest.item1.group.or", "settings") == "mgtest.item1.group.or.settings"
  {
    assert Dot("mgtest.item1.group.and", "settings") == "mgtest.item1.group.and" + "." + "settings";
    assert Dot("mgtest.item1.group.or", "settings") == "mgtest.item1.group.or" + "." + "settings";
  }

  lemma GroupMemberIndexes()
    ensures ResolveIndex(Group.members, "settings") == Some(0)
    ensures ResolveIndex(Group.members, "and") == Some(2)
    ensures ResolveIndex(Group.members, "or") == Some(2)
    ensures ResolveIndex(Group.members, "item1").None?
  {
    GroupMemberIndex("settings");
    GroupMemberIndex("and");
    GroupMemberIndex("or");
    GroupMemberIndex("item1");
  }

  lemma OpAttrs()
    ensures AttrName("and") == "and" && AttrName("or") == "or" && AttrName("settings") == "settings"
  {
    PlainAttr("and");
    PlainAttr("or");
    PlainAttr("settings");
  }

  // group: {and: [{settings: {result: true}}, {settings: {result: false}}]}

  const AndRaw := Map([KV("and", SettingsPair)])
  const AndOp := Mapped("StructRMappedGroupLogicalOpt", "and", "mgtest.item1.group.and", SettingsPair,
                        [Instance(PairMembers("mgtest.item1.group.and"))])
  const AndGroup := Mapped("StructRMappedGroup", "group", P, AndRaw, [Instance([AndOp])])
  const AndDoc := Map([KV("item1", Map([KV("group", AndRaw)]))])
  const AndLeaf := OneOverrideLeaf("mgtest", "item1", "group", AndRaw, AndGroup)

  lemma AndGroupResolves()
    ensures ResolveWith(Group, "group", P, AndRaw) == Ok(AndGroup)
  {
    GroupMemberIndexes();
    GroupDots();
    SettingsPairResolves(GroupLogicalOpt, "and", Dot(P, "and"));
    MappedEntry(Group.members, P, "and", SettingsPair, 2);
    OneKeyInstance(Group, "group", P, KV("and", SettingsPair), AndOp);
  }

  lemma AndTree()
    ensures Build("mgtest", AndDoc, [Group]) == Ok(Section("mgtest", "mgtest", None, "mgtest", AndDoc, [AndLeaf], []))
    ensures LeafSections(Section("mgtest", "mgtest", None, "mgtest", AndDoc, [AndLeaf], [])) == [AndLeaf]
  {
    GroupPath();
    GroupMemberIndexes();
    AndGroupResolves();
    OneOverrideTree([Group], "mgtest", "item1", "group", AndRaw, 0, AndGroup);
  }

  lemma AndFound()
    ensures Collect([AndGroup], "and") == [AndOp]
  {
    OpAttrs();
    CollectInstance(AndGroup, "and", [AndOp]);
    NamedAll([AndOp], "and");
  }

  lemma AndSettings()
    ensures Collect([AndOp], "settings") == PairMembers("mgtest.item1.group.and")
  {
    PairCollected(AndOp, "mgtest.item1.group.and");
  }

  /**
   * The document builds to one leaf holding `group`; `group` has one
   * instance; `group.and.settings` collects both members, with results
   * true then false.
   */
  lemma AndScenarioHolds()
    ensures Build("mgtest", AndDoc, [Group]) == Ok(Section("mgtest", "mgtest", None, "mgtest", AndDoc, [AndLeaf], []))
    ensures LeafSections(Section("mgtest", "mgtest", None, "mgtest", AndDoc, [AndLeaf], [])) == [AndLeaf]
    ensures AndLeaf.overrides == [AndGroup]
    ensures |AndGroup.instances| == 1
    ensures OverrideAccess.Get([AndGroup], "and") == Some([AndOp])
    ensures var settings := OverrideAccess.Get([AndOp], "settings");
      settings.Some? && |settings.value| == 2 &&
      ResultsOf(settings.value) == [Some(Bool(true)), Some(Bool(false))]
  {
    AndTree();
    AndFound();
    AndSettings();
    PairResults("mgtest.item1.group.and");
  }

  // group: {or: [{settings: {result: true}}, {settings: {result: false}}], and: {settings: {result: false}}}

  const BothRaw := Map([KV("or", SettingsPair), KV("and", Item2)])
  const OrOp := Mapped("StructRMappedGroupLogicalOpt", "or", "mgtest.item1.group.or", SettingsPair,
                       [Instance(PairMembers("mgtest.item1.group.or"))])
  const AndSetting := Plain("StructRSettings", "settings", "mgtest.item1.group.and.settings", Res0)
  const AndOne := Mapped("StructRMappedGroupLogicalOpt", "and", "mgtest.item1.group.and", Item2, [Instance([AndSetting])])
  const BothGroup := Mapped("StructRMappedGroup", "group", P, BothRaw, [Instance([OrOp, AndOne])])
  const BothDoc := Map([KV("item1", Map([KV("group", BothRaw)]))])

  lemma AndOneResolves()
    ensures ResolveEntry(Group.members, P, "and", Item2) == Ok(AndOne)
  {
    var pa := Dot(P, "and");
    GroupDots();
    OpDots();
    GroupMemberIndexes();
    PlainEntry(GroupLogicalOpt.members, pa, "settings", Res0, 0);
    OneKeyInstance(GroupLogicalOpt, "and", pa, KV("settings", Res0), AndSetting);
    MappedEntry(Group.members, P, "and", Item2, 2);
  }

  lemma OrResolves()
    ensures ResolveEntry(Group.members, P, "or", SettingsPair) == Ok(OrOp)
  {
    GroupMemberIndexes();
    GroupDots();
    SettingsPairResolves(GroupLogicalOpt, "or", Dot(P, "or"));
    MappedEntry(Group.members, P, "or", SettingsPair, 2);
  }

  lemma BothGroupResolves()
    ensures ResolveWith(Group, "group", P, BothRaw) == Ok(BothGroup)
  {
    AndOneResolves();
    OrResolves();
    TwoKeyInstance(Group, "group", P, KV("or", SettingsPair), KV("and", Item2), OrOp, AndOne);
  }

  lemma BothTree()
    ensures Build("mgtest", BothDoc, [Group]) ==
      Ok(Section("mgtest", "mgtest", None, "mgtest", BothDoc, [OneOverrideLeaf("mgtest", "item1", "group", BothRaw, BothGroup)], []))
  {
    GroupPath();
    GroupMemberIndexes();
    BothGroupResolves();
    OneOverrideTree([Group], "mgtest", "item1", "group", BothRaw, 0, BothGroup);
  }

  lemma BothFound()
    ensures Collect([BothGroup], "and") == [AndOne]
    ensures Collect([BothGroup], "or") == [OrOp]
  {
    OpAttrs();
    CollectInstance(BothGroup, "and", [OrOp, AndOne]);
    CollectInstance(BothGroup, "or", [OrOp, AndOne]);
    assert Named([AndOne], "or") == [];
    assert Named([AndOne], "and") == [AndOne];
  }

  lemma AndOneSettings()
    ensures Collect([AndOne], "settings") == [AndSetting]
  {
    OpAttrs();
    CollectInstance(AndOne, "settings", [AndSetting]);
    NamedAll([AndSetting], "settings");
  }

  /**
   * The document builds to one leaf holding `group`; `group` has one
   * instance; `group.and.settings` has one member with result false and
   * `group.or.settings` two, with results true then false.
   */
  lemma BothScenarioHolds()
    ensures Build("mgtest", BothDoc, [Group]) ==
      Ok(Section("mgtest", "mgtest", None, "mgtest", BothDoc, [OneOverrideLeaf("mgtest", "item1", "group", BothRaw, BothGroup)], []))
    ensures |BothGroup.instances| == 1
    ensures OverrideAccess.Get([BothGroup], "and") == Some([AndOne])
    ensures OverrideAccess.Get([BothGroup], "or") == Some([OrOp])
    ensures var settings := OverrideAccess.Get([AndOne], "settings");
      settings.Some? && |settings.value| == 1 && ResultsOf(settings.value) == [Some(Bool(false))]
    ensures var settings := OverrideAccess.Get([OrOp], "settings");
      settings.Some? && |settings.value| == 2 &&
      ResultsOf(settings.value) == [Some(Bool(true)), Some(Bool(false))]
  {
    BothTree();
    BothFound();
    AndOneSettings();
    PairCollected(OrOp, "mgtest.item1.group.or");
    PairResults("mgtest.item1.group.or");
  }

  // group: [{or: {settings: {result: true}}}, {settings: {result: false}}]

  const OrItem := Map([KV("or", Item1)])
  const MixedList := List([OrItem, Item2])
  const OrSetting := Plain("StructRSettings", "settings", "mgtest.item1.group.or.settings", Res1)
  const OrOne := Mapped("StructRMappedGroupLogicalOpt", "or", "mgtest.item1.group.or", Item1, [Instance([OrSetting])])
  const LooseSetting := Plain("StructRSettings", "settings", "mgtest.item1.group.settings", Res0)
  const MixedGroup := Mapped("StructRMappedGroup", "group", P, MixedList, [Instance([OrOne, LooseSetting])])
  const MixedDoc := Map([KV("item1", Map([KV("group", MixedList)]))])

  lemma OrOneResolves()
    ensures ItemEntries(Group.members, P, OrItem) == Ok([OrOne])
  {
    var po := Dot(P, "or");
    GroupDots();
    OpDots();
    GroupMemberIndexes();
    PlainEntry(GroupLogicalOpt.members, po, "settings", Res1, 0);
    OneKeyInstance(GroupLogicalOpt, "or", po, KV("settings", Res1), OrSetting);
    MappedEntry(Group.members, P, "or", Item1, 2);
    OneEntry(Group.members, P, KV("or", Item1), OrOne);
  }

  lemma LooseResolves()
    ensures ItemEntries(Group.members, P, Item2) == Ok([LooseSetting])
  {
    GroupDots();
    GroupMemberIndexes();
    PlainEntry(Group.members, P, "settings", Res0, 0);
    OneEntry(Group.members, P, KV("settings", Res0), LooseSetting);
  }

  lemma MixedCollapsed()
    ensures Collapsed(Group.members, P, MixedList, 0) == Ok([OrOne, LooseSetting])
  {
    OrOneResolves();
    LooseResolves();
    TwoCollapsed(Group.members, P, OrItem, Item2, [OrOne], [LooseSetting]);
    assert [OrOne] + [LooseSetting] == [OrOne, LooseSetting];
  }

  lemma MixedGroupResolves()
    ensures ResolveWith(Group, "group", P, MixedList) == Ok(MixedGroup)
  {
    MixedCollapsed();
    assert Collapses(MixedList.items);
  }

  lemma MixedTree()
    ensures Build("mgtest", MixedDoc, [Group]) ==
      Ok(Section("mgtest", "mgtest", None, "mgtest", MixedDoc, [OneOverrideLeaf("mgtest", "item1", "group", MixedList, MixedGroup)], []))
  {
    GroupPath();
    GroupMemberIndexes();
    MixedGroupResolves();
    OneOverrideTree([Group], "mgtest", "item1", "group", MixedList, 0, MixedGroup);
  }

  lemma MixedOrFound()
    ensures Collect([MixedGroup], "or") == [OrOne]
  {
    OpAttrs();
    CollectInstance(MixedGroup, "or", [OrOne, LooseSetting]);
    assert Named([LooseSetting], "or") == [];
  }

  lemma MixedOrSettings()
    ensures Collect([OrOne], "settings") == [OrSetting]
  {
    OpAttrs();
    CollectInstance(OrOne, "settings", [OrSetting]);
    NamedAll([OrSetting], "settings");
  }

  lemma MixedShallow()
    ensures Shallow(MixedGroup)
  {
  }

  /** The walk reaches the `settings` inside `or`, then the loose `settings`. */
  lemma MixedLeaves()
    ensures FlatLeaves(MixedGroup) == [OrSetting, LooseSetting]
  {
    FlatOneInstance(MixedGroup);
    FlatTwoEntries(MixedGroup.instances[0]);
    FlatOneInstance(OrOne);
    FlatTwoEntriesOne(OrOne.instances[0]);
  }

  lemma FlatTwoEntriesOne(inst: Instance)
    requires |inst.entries| == 1 && !inst.entries[0].Mapped?
    ensures FlatEntries(inst, 0) == [inst.entries[0]]
  {
    assert FlatEntries(inst, 1) == [];
  }

  /**
   * The document builds to one leaf holding `group`; `group` has one
   * instance; `group.or` is one override with one instance whose
   * `settings` has one member; walking every instance collects the
   * results true and false.
   */
  lemma MixedScenarioHolds()
    ensures Build("mgtest", MixedDoc, [Group]) ==
      Ok(Section("mgtest", "mgtest", None, "mgtest", MixedDoc, [OneOverrideLeaf("mgtest", "item1", "group", MixedList, MixedGroup)], []))
    ensures |MixedGroup.instances| == 1
    ensures OverrideAccess.Get([MixedGroup], "or") == Some([OrOne])
    ensures |OrOne.instances| == 1
    ensures var settings := OverrideAccess.Get([OrOne], "settings");
      settings.Some? && |settings.value| == 1
    ensures multiset(ResultsOf(FlatLeaves(MixedGroup))) == multiset{Some(Bool(true)), Some(Bool(false))}
  {
    MixedTree();
    MixedOrFound();
    MixedOrSettings();
    MixedWalk();
  }

  lemma MixedWalk()
    ensures multiset(ResultsOf(FlatLeaves(MixedGroup))) == multiset{Some(Bool(true)), Some(Bool(false))}
  {
    MixedLeaves();
    assert ResultsOf([OrSetting, LooseSetting]) == [Some(Bool(true)), Some(Bool(false))];
  }

  /** The client loop of the mixed-list test: results gathered by walking the group. */
  method MixedResults() returns (results: seq<Option<Value>>)
    ensures multiset(results) == multiset{Some(Bool(true)), Some(Bool(false))}
  {
    MixedShallow();
    var leaves := GatherLeaves(MixedGroup);
    MixedScenarioHolds();
    results := ResultsOf(leaves);
  }
}
