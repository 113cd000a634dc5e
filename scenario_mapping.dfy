/**
 * A mapped group next to a plain override (tests/unit/test_ystruct.py:195-222):
 * `item1` has a group with both `settings` and `action`; `item3` has a
 * message and a group with `settings` only. Each group has one instance,
 * its members read back their content, and `all` holds exactly the members
 * present.
 */
module MappingScenario {
  import opened Wrappers
  import opened Document
  import opened Registry
  import opened Paths
  import opened Overrides
  import opened OverrideAccess
  import opened Sections
  import opened BuildSteps

  const PlumPie := Map([KV("plum", Str("pie"))])
  const EatNow := Map([KV("eat", Str("now"))])
  const IceCream := Map([KV("ice", Str("cream"))])
  const NotMapped := Str("message not mapped")
  const Group1Raw := Map([KV("settings", PlumPie), KV("action", EatNow)])
  const Group3Raw := Map([KV("settings", IceCream)])
  const Item1Raw := Map([KV("group", Group1Raw)])
  const Item3Raw := Map([KV("message", NotMapped), KV("group", Group3Raw)])
  const Doc := Map([KV("item1", Item1Raw), KV("item3", Item3Raw)])
  const Reg := [Message, Group]

  const S1 := Plain("StructRSettings", "settings", "atest.item1.group.settings", PlumPie)
  const A1 := Plain("StructRAction", "action", "atest.item1.group.action", EatNow)
  const G1 := Mapped("StructRMappedGroup", "group", "atest.item1.group", Group1Raw, [Instance([S1, A1])])
  const S3 := Plain("StructRSettings", "settings", "atest.item3.group.settings", IceCream)
  const G3 := Mapped("StructRMappedGroup", "group", "atest.item3.group", Group3Raw, [Instance([S3])])
  const M3 := Plain("StructRMessage", "message", "atest.item3.message", NotMapped)

  const Item1 := OneOverrideLeaf("atest", "item1", "group", Group1Raw, G1)
  const Item3 := Section("item3", "atest.item3", Some("atest"), "atest", Item3Raw, [], [M3, G3])
  const Tree := Section("atest", "atest", None, "atest", Doc, [Item1, Item3], [])

  lemma G1Resolves(path: string)
    requires path == "atest.item1.group"
    ensures ResolveWith(Group, "group", path, Group1Raw) == Ok(G1)
  {
    assert Dot(path, "settings") == path + "." + "settings";
    assert Dot(path, "settings") == "atest.item1.group.settings";
    assert Dot(path, "action") == path + "." + "action";
    assert Dot(path, "action") == "atest.item1.group.action";
    GroupMemberIndex("settings");
    GroupMemberIndex("action");
    PlainEntry(Group.members, path, "settings", PlumPie, 0);
    PlainEntry(Group.members, path, "action", EatNow, 1);
    TwoKeyInstance(Group, "group", path, KV("settings", PlumPie), KV("action", EatNow), S1, A1);
  }

  lemma G3Resolves(path: string)
    requires path == "atest.item3.group"
    ensures ResolveWith(Group, "group", path, Group3Raw) == Ok(G3)
  {
    assert Dot(path, "settings") == path + "." + "settings";
    assert Dot(path, "settings") == "atest.item3.group.settings";
    GroupMemberIndex("settings");
    PlainEntry(Group.members, path, "settings", IceCream, 0);
    OneKeyInstance(Group, "group", path, KV("settings", IceCream), S3);
  }

  lemma Item1Builds()
    ensures BuildSection(Reg, "atest", Some("atest"), "item1", Dot("atest", "item1"), Item1Raw) == Ok(Item1)
  {
    var path := Dot(Dot("atest", "item1"), "group");
    assert path == "atest.item1.group";
    G1Resolves(path);
    assert ResolveIndex(Reg, "group") == Some(1);
    OneOverrideBuilds(Reg, "atest", "item1", "group", Group1Raw, 1, G1);
  }

  lemma Item3Explicit(path: string)
    requires path == "atest.item3"
    ensures ExplicitOverrides(Reg, path, [KV("message", NotMapped), KV("group", Group3Raw)], 0) == Ok([M3, G3])
  {
    assert Dot(path, "message") == path + "." + "message";
    assert Dot(path, "message") == "atest.item3.message";
    assert Dot(path, "group") == path + "." + "group";
    assert Dot(path, "group") == "atest.item3.group";
    G3Resolves(Dot(path, "group"));
    assert ResolveIndex(Reg, "message") == Some(0);
    assert ResolveIndex(Reg, "group") == Some(1);
    TwoExplicit(Reg, path, KV("message", NotMapped), KV("group", Group3Raw), 0, 1, M3, G3);
  }

  lemma Item3Builds()
    ensures BuildSection(Reg, "atest", Some("atest"), "item3", Dot("atest", "item3"), Item3Raw) == Ok(Item3)
  {
    var path := Dot("atest", "item3");
    assert path == "atest.item3";
    Item3Explicit(path);
    IndexOfTwo(Message, Group, "message");
    IndexOfTwo(Message, Group, "group");
    assert Classify(Reg, "message", NotMapped) == OverrideKey(0);
    assert Classify(Reg, "group", Group3Raw) == OverrideKey(1);
    OverridesOnly(Reg, "atest", Some("atest"), "item3", path, Item3Raw, [M3, G3]);
  }

  lemma Item1Key()
    ensures Classify(Reg, "item1", Item1Raw) == ChildKey
  {
    IndexOfTwo(Message, Group, "item1");
    GroupMemberIndex("item1");
  }

  lemma Item3Key()
    ensures Classify(Reg, "item3", Item3Raw) == ChildKey
  {
    IndexOfTwo(Message, Group, "item3");
    GroupMemberIndex("item3");
  }

  lemma RootKeys()
    ensures Classify(Reg, "item1", Item1Raw) == ChildKey && Classify(Reg, "item3", Item3Raw) == ChildKey
    ensures Item1Raw.Map? && Item3Raw.Map?
    ensures Doc == Map([KV("item1", Item1Raw), KV("item3", Item3Raw)])
  {
    Item1Key();
    Item3Key();
  }

  lemma RootShape(c1: Section, c2: Section)
    requires BuildSection(Reg, "atest", Some("atest"), "item1", Dot("atest", "item1"), Item1Raw) == Ok(c1)
    requires BuildSection(Reg, "atest", Some("atest"), "item3", Dot("atest", "item3"), Item3Raw) == Ok(c2)
    ensures Build("atest", Doc, Reg) == Ok(Section("atest", "atest", None, "atest", Doc, [c1, c2], []))
  {
    RootKeys();
    TwoChildSection(Reg, "atest", None, "atest", "atest", KV("item1", Item1Raw), KV("item3", Item3Raw), c1, c2);
  }

  lemma TreeBuilds()
    ensures Build("atest", Doc, Reg) == Ok(Tree)
  {
    Item1Builds();
    Item3Builds();
    RootShape(Item1, Item3);
  }

  lemma TreeLeaves()
    ensures LeafSections(Tree) == [Item1, Item3]
  {
    LeavesOfTwo(Tree, Item1, Item3);
  }

  lemma Item1Found()
    ensures Sections.Get(Item1, "group") == Some(G1)
  {
    PlainAttr("group");
  }

  lemma Item3Found()
    ensures Sections.Get(Item3, "message") == Some(M3)
    ensures Sections.Get(Item3, "group") == Some(G3)
  {
    PlainAttr("group");
    PlainAttr("message");
    GetAt(Item3, "message", 0);
    GetAt(Item3, "group", 1);
  }

  lemma G1Settings()
    ensures OverrideAccess.Get([G1], "settings") == Some([S1])
  {
    PlainAttr("settings");
    assert Named([A1], "settings") == [];
    CollectInstance(G1, "settings", [S1, A1]);
    GetCollected([G1], "settings", [S1]);
  }

  lemma G1Action()
    ensures OverrideAccess.Get([G1], "action") == Some([A1])
  {
    PlainAttr("action");
    assert Named([A1], "action") == [A1];
    CollectInstance(G1, "action", [S1, A1]);
    GetCollected([G1], "action", [A1]);
  }

  lemma G3Settings()
    ensures OverrideAccess.Get([G3], "settings") == Some([S3])
  {
    PlainAttr("settings");
    assert Named([S3], "settings") == [S3];
    CollectInstance(G3, "settings", [S3]);
    GetCollected([G3], "settings", [S3]);
  }

  lemma G3Action()
    ensures OverrideAccess.Get([G3], "action") == None
  {
    PlainAttr("settings");
    assert Named([S3], "action") == [];
    CollectInstance(G3, "action", [S3]);
    GetCollected([G3], "action", []);
  }

  lemma ContentsRead()
    ensures Field(Content(S1), "plum") == Some(Str("pie")) && Field(Content(A1), "eat") == Some(Str("now"))
    ensures Content(M3) == NotMapped && Field(Content(S3), "ice") == Some(Str("cream"))
    ensures |G1.instances| == 1 && |G3.instances| == 1
  {
  }

  /**
   * Both leaves are found and each group has one instance; item1's group
   * reads `settings.plum` as "pie" and `action.eat` as "now"; item3's
   * message reads "message not mapped", its group reads `settings.ice` as
   * "cream" and has no `action`.
   */
  lemma MappingScenarioHolds()
    ensures Build("atest", Doc, Reg) == Ok(Tree)
    ensures LeafSections(Tree) == [Item1, Item3]
    ensures Sections.Get(Item1, "group") == Some(G1) && |G1.instances| == 1
    ensures OverrideAccess.Get([G1], "settings") == Some([S1]) && Field(Content(S1), "plum") == Some(Str("pie"))
    ensures OverrideAccess.Get([G1], "action") == Some([A1]) && Field(Content(A1), "eat") == Some(Str("now"))
    ensures Sections.Get(Item3, "message") == Some(M3) && Content(M3) == NotMapped
    ensures Sections.Get(Item3, "group") == Some(G3) && |G3.instances| == 1
    ensures OverrideAccess.Get([G3], "settings") == Some([S3]) && Field(Content(S3), "ice") == Some(Str("cream"))
    ensures OverrideAccess.Get([G3], "action") == None
  {
    TreeBuilds();
    TreeLeaves();
    ContentsRead();
    Item1Found();
    Item3Found();
    G1Settings();
    G1Action();
    G3Settings();
    G3Action();
  }

  /**
   * `altaction` inside a group resolves through the action member type, and
   * the override records the spelling that reached it.
   */
  lemma AltActionResolves(path: string, v: Value)
    ensures ResolveEntry(Group.members, path, "altaction", v) == Ok(Plain("StructRAction", "altaction", Dot(path, "altaction"), v))
    ensures Plain("StructRAction", "altaction", Dot(path, "altaction"), v).Name() == "altaction"
  {
    GroupMemberIndex("altaction");
    PlainEntry(Group.members, path, "altaction", v, 1);
  }

  lemma PairMap(m: map<string, Value>, a: string, b: string, va: Value, vb: Value)
    requires m.Keys <= {a, b} && a in m && b in m && m[a] == va && m[b] == vb
    ensures m == map[a := va, b := vb]
  {
  }

  lemma SingleMap(m: map<string, Value>, a: string, b: string, va: Value)
    requires m.Keys <= {a, b} && a in m && b !in m && m[a] == va
    ensures m == map[a := va]
  {
  }

  /** The `all` property of item1's group holds both members' content. */
  method AllOfItem1() returns (all: map<string, Value>)
    ensures all == map["settings" := PlumPie, "action" := EatNow]
  {
    G1Settings();
    G1Action();
    all := All(G1);
    PairMap(all, "settings", "action", PlumPie, EatNow);
  }

  /** The `all` property of item3's group holds only `settings`. */
  method AllOfItem3() returns (all: map<string, Value>)
    ensures all == map["settings" := IceCream]
  {
    G3Settings();
    G3Action();
    all := All(G3);
    SingleMap(all, "settings", "action", IceCream);
  }
}
