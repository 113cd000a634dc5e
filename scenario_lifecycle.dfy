/**
 * The hooks test (tests/unit/test_ystruct.py:372-394) and the context test
 * (tests/unit/test_ystruct.py:435-460), stated against the tree builder.
 */
module LifecycleScenarios {
  import opened Wrappers
  import opened Document
  import opened Registry
  import opened Paths
  import opened Overrides
  import opened OverrideAccess
  import opened Sections
  import opened BuildSteps
  import opened ContextCarrier
  import opened TreeBuilder

  const BrakeOff := Map([KV("brake", Bool(false))])
  const ClutchOn := Map([KV("clutch", Bool(true))])
  const Reg := [Group]

  // The hooks test's document: myroot: {leaf1: {settings: {brake: off}}, leaf2: {settings: {clutch: on}}}
  const HookRoot := Map([KV("leaf1", Map([KV("settings", BrakeOff)])), KV("leaf2", Map([KV("settings", ClutchOn)]))])
  const HookDoc := Map([KV("myroot", HookRoot)])

  /** The `group` a leaf at `path` holding only `settings: v` resolves to. */
  function SettingsGroup(path: string, v: Value): Override
  {
    Mapped("StructRMappedGroup", "group", Dot(path, "group"), Map([KV("settings", v)]),
           [Instance([Plain("StructRSettings", "settings", Dot(Dot(path, "group"), "settings"), v)])])
  }

  /** A leaf holding only `settings` builds to a section whose one override is its implicit group. */
  lemma SettingsLeafBuilds(rootName: string, parent: string, name: string, path: string, v: Value)
    ensures BuildSection(Reg, rootName, Some(parent), name, path, Map([KV("settings", v)])) ==
      Ok(Section(name, path, Some(parent), rootName, Map([KV("settings", v)]), [], [SettingsGroup(path, v)]))
  {
    var gp := Dot(path, "group");
    GroupMemberIndex("settings");
    PlainEntry(Group.members, gp, "settings", v, 0);
    OneKeyInstance(Group, "group", gp, KV("settings", v), Plain("StructRSettings", "settings", Dot(gp, "settings"), v));
    assert Classify(Reg, "settings", v) == MemberKey(0);
    GroupLeaf(rootName, parent, name, path, Map([KV("settings", v)]), SettingsGroup(path, v));
  }

  const HookLeaf1 := Map([KV("settings", BrakeOff)])
  const HookLeaf2 := Map([KV("settings", ClutchOn)])

  lemma HookLeafKeys()
    ensures Classify(Reg, "leaf1", HookLeaf1) == ChildKey && Classify(Reg, "leaf2", HookLeaf2) == ChildKey
    ensures HookRoot == Map([KV("leaf1", HookLeaf1), KV("leaf2", HookLeaf2)])
  {
    GroupMemberIndex("leaf1");
    GroupMemberIndex("leaf2");
    ChildName("leaf1", HookLeaf1);
    ChildName("leaf2", HookLeaf2);
  }

  /** `myroot` builds to a section holding its two leaves, in document order. */
  lemma HookRootSection(mp: string) returns (c: Section)
    requires mp == Dot("hooktest", "myroot")
    ensures BuildSection(Reg, "hooktest", Some("hooktest"), "myroot", mp, HookRoot) == Ok(c)
    ensures c.children == [Section("leaf1", Dot(mp, "leaf1"), Some("myroot"), "hooktest", HookLeaf1, [], [SettingsGroup(Dot(mp, "leaf1"), BrakeOff)]),
                           Section("leaf2", Dot(mp, "leaf2"), Some("myroot"), "hooktest", HookLeaf2, [], [SettingsGroup(Dot(mp, "leaf2"), ClutchOn)])]
  {
    SettingsLeafBuilds("hooktest", "myroot", "leaf1", Dot(mp, "leaf1"), BrakeOff);
    SettingsLeafBuilds("hooktest", "myroot", "leaf2", Dot(mp, "leaf2"), ClutchOn);
    HookLeafKeys();
    var c1 := Section("leaf1", Dot(mp, "leaf1"), Some("myroot"), "hooktest", HookLeaf1, [], [SettingsGroup(Dot(mp, "leaf1"), BrakeOff)]);
    var c2 := Section("leaf2", Dot(mp, "leaf2"), Some("myroot"), "hooktest", HookLeaf2, [], [SettingsGroup(Dot(mp, "leaf2"), ClutchOn)]);
    TwoChildSection(Reg, "hooktest", Some("hooktest"), "myroot", mp, KV("leaf1", HookLeaf1), KV("leaf2", HookLeaf2), c1, c2);
    c := Section("myroot", mp, Some("hooktest"), "hooktest", HookRoot, [c1, c2], []);
  }

  /** The hooks test's document builds: its root holds `myroot`, which holds both leaves. */
  lemma HookDocBuilds()
    ensures Build("hooktest", HookDoc, Reg).Ok?
    ensures |Build("hooktest", HookDoc, Reg).value.children| == 1
    ensures |Build("hooktest", HookDoc, Reg).value.children[0].children| == 2
  {
    var c := HookRootSection(Dot("hooktest", "myroot"));
    GroupMemberIndex("myroot");
    GroupRootBuilds("hooktest", "myroot", HookRoot, c);
  }

  /**
   * Built without hooks, neither hook fires; built with them, both fire,
   * once each. Either way the document is built once.
   */
  method HooksTest() returns (off: seq<Event>, on: seq<Event>)
    ensures Count(off, PreHook) == 0 && Count(off, PostHook) == 0
    ensures Count(on, PreHook) == 1 && Count(on, PostHook) == 1
    ensures Count(off, Built) == 1 && Count(on, Built) == 1
  {
    var quiet := new SectionTree("hooktest", HookDoc, Reg, false);
    var hooked := new SectionTree("hooktest", HookDoc, Reg, true);
    HookDocBuilds();
    LifecycleHooks(false, true);
    LifecycleHooks(true, true);
    off, on := quiet.trace, hooked.trace;
  }

  // The context test's document: myroot: {leaf1: {settings: {brake: off}}}
  const Leaf1Raw := Map([KV("settings", BrakeOff)])
  const MyRootRaw := Map([KV("leaf1", Leaf1Raw)])
  const Doc := Map([KV("myroot", MyRootRaw)])

  const S := Plain("StructRSettings", "settings", "contexttest.myroot.leaf1.group.settings", BrakeOff)
  const G := Mapped("StructRMappedGroup", "group", "contexttest.myroot.leaf1.group", Leaf1Raw, [Instance([S])])
  const Leaf1 := Section("leaf1", "contexttest.myroot.leaf1", Some("myroot"), "contexttest", Leaf1Raw, [], [G])
  const MyRoot := Section("myroot", "contexttest.myroot", Some("contexttest"), "contexttest", MyRootRaw, [Leaf1], [])
  const Tree := Section("contexttest", "contexttest", None, "contexttest", Doc, [MyRoot], [])

  lemma GResolves(path: string)
    requires path == "contexttest.myroot.leaf1.group"
    ensures ResolveMapped(Group, "group", path, Leaf1Raw) == Ok(G)
  {
    assert Dot(path, "settings") == path + "." + "settings";
    assert Dot(path, "settings") == "contexttest.myroot.leaf1.group.settings";
    GroupMemberIndex("settings");
    PlainEntry(Group.members, path, "settings", BrakeOff, 0);
    OneKeyInstance(Group, "group", path, KV("settings", BrakeOff), S);
  }

  lemma Leaf1Builds()
    ensures BuildSection(Reg, "contexttest", Some("myroot"), "leaf1", Dot("contexttest.myroot", "leaf1"), Leaf1Raw) == Ok(Leaf1)
  {
    var path := Dot("contexttest.myroot", "leaf1");
    assert path == "contexttest.myroot.leaf1";
    assert Dot(path, "group") == path + "." + "group";
    assert Dot(path, "group") == "contexttest.myroot.leaf1.group";
    GResolves(Dot(path, "group"));
    GroupMemberIndex("settings");
    assert Classify(Reg, "settings", BrakeOff) == MemberKey(0);
    GroupLeaf("contexttest", "myroot", "leaf1", path, Leaf1Raw, G);
  }

  lemma MyRootKeys()
    ensures Classify(Reg, "leaf1", Leaf1Raw) == ChildKey && Leaf1Raw.Map?
    ensures MyRootRaw == Map([KV("leaf1", Leaf1Raw)])
  {
    ChildName("leaf1", Leaf1Raw);
  }

  lemma MyRootShape(c: Section)
    requires BuildSection(Reg, "contexttest", Some("myroot"), "leaf1", Dot("contexttest.myroot", "leaf1"), Leaf1Raw) == Ok(c)
    ensures BuildSection(Reg, "contexttest", Some("contexttest"), "myroot", "contexttest.myroot", MyRootRaw) ==
      Ok(Section("myroot", "contexttest.myroot", Some("contexttest"), "contexttest", MyRootRaw, [c], []))
  {
    MyRootKeys();
    OneChildSection(Reg, "contexttest", Some("contexttest"), "myroot", "contexttest.myroot", KV("leaf1", Leaf1Raw), c);
  }

  lemma MyRootBuilds()
    ensures BuildSection(Reg, "contexttest", Some("contexttest"), "myroot", Dot("contexttest", "myroot"), MyRootRaw) == Ok(MyRoot)
  {
    assert Dot("contexttest", "myroot") == "contexttest" + "." + "myroot";
    assert Dot("contexttest", "myroot") == "contexttest.myroot";
    Leaf1Builds();
    MyRootShape(Leaf1);
  }

  lemma TreeMembers()
    ensures LeafSections(Tree) == [Leaf1]
    ensures AllHave([Leaf1], "group")
    ensures GroupMembers([Leaf1]) == [S]
  {
    LeavesOfOne(Tree, MyRoot);
    LeavesOfOne(MyRoot, Leaf1);
    PlainAttr("group");
    assert Sections.Get(Leaf1, "group") == Some(G);
    MembersOfOne(G);
    assert [Leaf1][..0] == [];
  }

  /** What the context test's loop runs over: one leaf whose group has one member. */
  lemma ContextTreeShape()
    ensures Build("contexttest", Doc, Reg).Ok?
    ensures AllHave(LeafSections(Build("contexttest", Doc, Reg).value), "group")
    ensures |GroupMembers(LeafSections(Build("contexttest", Doc, Reg).value))| == 1
  {
    MyRootBuilds();
    GroupMemberIndex("myroot");
    assert BuildSection([Group], "contexttest", Some("contexttest"), "myroot", Dot("contexttest", "myroot"), MyRootRaw) == Ok(MyRoot);
    GroupRootBuilds("contexttest", "myroot", MyRootRaw, MyRoot);
    assert Build("contexttest", Doc, Reg) == Ok(Tree);
    TreeMembers();
  }

  /**
   * The one leaf has one group member; its first `get("k1")` finds nothing,
   * the `get` after `set("k1", "notk2")` finds "notk2", and the caller's own
   * handler object sees the value set through the tree.
   */
  method ContextTest() returns (before: seq<Option<Value>>, after: seq<Option<Value>>, seen: Option<Value>)
    ensures before == [None] && after == [Some(Str("notk2"))]
    ensures seen == Some(Str("notk2"))
  {
    var handler := new Context();
    var root := new SectionTree.WithContext("contexttest", Doc, Reg, handler, false);
    ContextTreeShape();
    before, after := root.ContextRoundTrips("k1", Str("notk2"));
    seen := handler.Get("k1");
  }
}
