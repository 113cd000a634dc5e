/**
 * A `group` holding a list of two `settings`-only mappings
 * (tests/unit/test_ystruct.py:250-266): the list collapses into one
 * instance whose two `settings` members keep list order.
 */
module ListScenario {
  import opened Wrappers
  import opened Document
  import opened Registry
  import opened Paths
  import opened Overrides
  import opened OverrideAccess
  import opened Sections
  import opened BuildSteps

  const Res1 := Map([KV("result", Bool(true))])
  const Res0 := Map([KV("result", Bool(false))])
  const Item1 := Map([KV("settings", Res1)])
  const Item2 := Map([KV("settings", Res0)])
  /** `- settings: {result: true}` then `- settings: {result: false}`. */
  const SettingsPair := List([Item1, Item2])

  /** The two `settings` members the pair yields below `path`. */
  function PairMembers(path: string): seq<Override>
  {
    [Plain("StructRSettings", "settings", Dot(path, "settings"), Res1),
     Plain("StructRSettings", "settings", Dot(path, "settings"), Res0)]
  }

  /** The pair resolves, under any mapped handler whose first member type is `settings`, to one instance of both members. */
  lemma SettingsPairResolves(h: Handler, alias: string, path: string)
    requires h.mapped && |h.members| > 0 && h.members[0] == Settings
    ensures ResolveWith(h, alias, path, SettingsPair) == Ok(Mapped(h.cls, alias, path, SettingsPair, [Instance(PairMembers(path))]))
  {
    var ms := PairMembers(path);
    assert ResolveIndex(h.members, "settings") == Some(0);
    PlainEntry(h.members, path, "settings", Res1, 0);
    PlainEntry(h.members, path, "settings", Res0, 0);
    OneEntry(h.members, path, KV("settings", Res1), ms[0]);
    OneEntry(h.members, path, KV("settings", Res0), ms[1]);
    TwoCollapsed(h.members, path, Item1, Item2, [ms[0]], [ms[1]]);
    assert Collapses(SettingsPair.items);
    assert [ms[0]] + [ms[1]] == ms;
  }

  lemma PairNamed(path: string)
    ensures Named(PairMembers(path), "settings") == PairMembers(path)
  {
    PlainAttr("settings");
    NamedAll(PairMembers(path), "settings");
  }

  lemma PairResults(path: string)
    ensures ResultsOf(PairMembers(path)) == [Some(Bool(true)), Some(Bool(false))]
  {
  }

  /** `group.settings` on a one-instance override holding the pair. */
  lemma PairCollected(o: Override, path: string)
    requires o.Mapped? && o.instances == [Instance(PairMembers(path))]
    ensures Collect([o], "settings") == PairMembers(path)
  {
    MembersOfOne(o);
    CollectOne(o, "settings");
    PairNamed(path);
  }

  const Leaf1 := Map([KV("group", SettingsPair)])
  const Doc := Map([KV("item1", Leaf1)])
  const Reg := [Group]

  const G := Mapped("StructRMappedGroup", "group", "mgtest.item1.group", SettingsPair, [Instance(PairMembers("mgtest.item1.group"))])
  const LeafSection := OneOverrideLeaf("mgtest", "item1", "group", SettingsPair, G)
  const Tree := Section("mgtest", "mgtest", None, "mgtest", Doc, [LeafSection], [])

  lemma TreeBuilds()
    ensures Build("mgtest", Doc, Reg) == Ok(Tree)
    ensures LeafSections(Tree) == [LeafSection]
  {
    var p := Dot(Dot("mgtest", "item1"), "group");
    assert p == "mgtest.item1.group";
    SettingsPairResolves(Group, "group", p);
    GroupMemberIndex("item1");
    OneOverrideTree(Reg, "mgtest", "item1", "group", SettingsPair, 0, G);
  }

  lemma GroupFound()
    ensures Sections.Get(LeafSection, "group") == Some(G)
  {
    PlainAttr("group");
  }

  /**
   * The only leaf is `item1`; its `group` has one instance, and
   * `group.settings` collects both members with results true then false.
   */
  lemma ListScenarioHolds()
    ensures Build("mgtest", Doc, Reg) == Ok(Tree)
    ensures LeafSections(Tree) == [LeafSection]
    ensures Sections.Get(LeafSection, "group") == Some(G)
    ensures |G.instances| == 1
    ensures var settings := OverrideAccess.Get([G], "settings");
      settings.Some? && |settings.value| == 2 &&
      ResultsOf(settings.value) == [Some(Bool(true)), Some(Bool(false))]
  {
    TreeBuilds();
    GroupFound();
    PairCollected(G, "mgtest.item1.group");
    PairResults("mgtest.item1.group");
  }
}
