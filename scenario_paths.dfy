/**
 * Dotted paths and leaf order (tests/unit/test_ystruct.py:396-433): leaves
 * come out depth first in document order; a section holding only `settings`
 * and `action` still has a `group` override, at the section's path plus
 * `.group`, whose members sit at the group's path plus their key.
 */
module PathsScenario {
  import opened Wrappers
  import opened Document
  import opened Registry
  import opened Paths
  import opened Overrides
  import opened OverrideAccess
  import opened Sections
  import opened BuildSteps

  /** The paths of `os`, in order. */
  function PathsOf(os: seq<Override>): (r: seq<string>)
    ensures |r| == |os| && forall k :: 0 <= k < |os| ==> r[k] == os[k].path
  {
    if |os| == 0 then [] else [os[0].path] + PathsOf(os[1..])
  }

  /** What the test records for one leaf: its path, its group's path, then each group member's path. */
  function LeafPaths(leaf: Section): seq<string>
    requires Sections.Get(leaf, "group").Some?
  {
    var g := Sections.Get(leaf, "group").value;
    [leaf.path, g.path] + PathsOf(Members(g))
  }

  /** The records of `leaves`, in leaf order. */
  function Listing(leaves: seq<Section>): seq<string>
    requires AllHave(leaves, "group")
  {
    if |leaves| == 0 then []
    else Listing(leaves[..|leaves| - 1]) + LeafPaths(leaves[|leaves| - 1])
  }

  lemma PathsOfSnoc(ms: seq<Override>, j: nat)
    requires j < |ms|
    ensures PathsOf(ms[..j + 1]) == PathsOf(ms[..j]) + [ms[j].path]
  {
  }

  lemma ListingStep(leaves: seq<Section>, i: nat)
    requires AllHave(leaves, "group") && i < |leaves|
    ensures AllHave(leaves[..i], "group") && AllHave(leaves[..i + 1], "group")
    ensures Listing(leaves[..i + 1]) == Listing(leaves[..i]) + LeafPaths(leaves[i])
  {
    assert leaves[..i + 1][..i] == leaves[..i];
  }

  /** The client loop of the resolve-paths test over the leaves of `root`. */
  method ResolvedPaths(root: Section) returns (resolved: seq<string>)
    requires AllHave(LeafSections(root), "group")
    ensures resolved == Listing(LeafSections(root))
  {
    var leaves := LeafSections(root);
    resolved := [];
    var i := 0;
    while i < |leaves|
      invariant 0 <= i <= |leaves|
      invariant AllHave(leaves[..i], "group") && resolved == Listing(leaves[..i])
    {
      ListingStep(leaves, i);
      var row := LeafRow(leaves[i]);
      resolved := resolved + row;
      i := i + 1;
    }
    assert leaves[..i] == leaves;
  }

  /** The inner loop of the resolve-paths test: one leaf's path, its group's path, then its members' paths. */
  method LeafRow(leaf: Section) returns (row: seq<string>)
    requires Sections.Get(leaf, "group").Some?
    ensures row == LeafPaths(leaf)
  {
    var g := Sections.Get(leaf, "group").value;
    var members := Members(g);
    var tail := [];
    var j := 0;
    while j < |members|
      invariant 0 <= j <= |members|
      invariant tail == PathsOf(members[..j])
    {
      PathsOfSnoc(members, j);
      tail := tail + [members[j].path];
      j := j + 1;
    }
    assert members[..j] == members;
    row := [leaf.path, g.path] + tail;
  }

  // myroot: {sub1: {sub2: {leaf1: {settings: {brake: off}, action: go},
  //                        leaf2: {settings: {clutch: on}}}},
  //          sub3: {leaf3: {settings: {clutch: on}}}}

  const BrakeOff := Map([KV("brake", Bool(false))])
  const ClutchOn := Map([KV("clutch", Bool(true))])
  const Leaf1Raw := Map([KV("settings", BrakeOff), KV("action", Str("go"))])
  const Leaf2Raw := Map([KV("settings", ClutchOn)])
  const Sub2Raw := Map([KV("leaf1", Leaf1Raw), KV("leaf2", Leaf2Raw)])
  const Sub1Raw := Map([KV("sub2", Sub2Raw)])
  const Sub3Raw := Map([KV("leaf3", Leaf2Raw)])
  const MyRootRaw := Map([KV("sub1", Sub1Raw), KV("sub3", Sub3Raw)])
  const Doc := Map([KV("myroot", MyRootRaw)])
  const Reg := [Group]

  const G1 := Mapped("StructRMappedGroup", "group", "resolvtest.myroot.sub1.sub2.leaf1.group", Leaf1Raw,
    [Instance([Plain("StructRSettings", "settings", "resolvtest.myroot.sub1.sub2.leaf1.group.settings", BrakeOff),
               Plain("StructRAction", "action", "resolvtest.myroot.sub1.sub2.leaf1.group.action", Str("go"))])])
  const G2 := Mapped("StructRMappedGroup", "group", "resolvtest.myroot.sub1.sub2.leaf2.group", Leaf2Raw,
    [Instance([Plain("StructRSettings", "settings", "resolvtest.myroot.sub1.sub2.leaf2.group.settings", ClutchOn)])])
  const G3 := Mapped("StructRMappedGroup", "group", "resolvtest.myroot.sub3.leaf3.group", Leaf2Raw,
    [Instance([Plain("StructRSettings", "settings", "resolvtest.myroot.sub3.leaf3.group.settings", ClutchOn)])])

  const L1 := Section("leaf1", "resolvtest.myroot.sub1.sub2.leaf1", Some("sub2"), "resolvtest", Leaf1Raw, [], [G1])
  const L2 := Section("leaf2", "resolvtest.myroot.sub1.sub2.leaf2", Some("sub2"), "resolvtest", Leaf2Raw, [], [G2])
  const L3 := Section("leaf3", "resolvtest.myroot.sub3.leaf3", Some("sub3"), "resolvtest", Leaf2Raw, [], [G3])
  const Sub2 := Section("sub2", "resolvtest.myroot.sub1.sub2", Some("sub1"), "resolvtest", Sub2Raw, [L1, L2], [])
  const Sub1 := Section("sub1", "resolvtest.myroot.sub1", Some("myroot"), "resolvtest", Sub1Raw, [Sub2], [])
  const Sub3 := Section("sub3", "resolvtest.myroot.sub3", Some("myroot"), "resolvtest", Sub3Raw, [L3], [])
  const MyRoot := Section("myroot", "resolvtest.myroot", Some("resolvtest"), "resolvtest", MyRootRaw, [Sub1, Sub3], [])
  const Tree := Section("resolvtest", "resolvtest", None, "resolvtest", Doc, [MyRoot], [])

  const Expected := [
    "resolvtest.myroot.sub1.sub2.leaf1",
    "resolvtest.myroot.sub1.sub2.leaf1.group",
    "resolvtest.myroot.sub1.sub2.leaf1.group.settings",
    "resolvtest.myroot.sub1.sub2.leaf1.group.action",
    "resolvtest.myroot.sub1.sub2.leaf2",
    "resolvtest.myroot.sub1.sub2.leaf2.group",
    "resolvtest.myroot.sub1.sub2.leaf2.group.settings",
    "resolvtest.myroot.sub3.leaf3",
    "resolvtest.myroot.sub3.leaf3.group",
    "resolvtest.myroot.sub3.leaf3.group.settings"]

  lemma MemberKeys()
    ensures Classify(Reg, "settings", BrakeOff) == MemberKey(0)
    ensures Classify(Reg, "settings", ClutchOn) == MemberKey(0)
    ensures Classify(Reg, "action", Str("go")) == MemberKey(0)
  {
    GroupMemberIndex("settings");
    GroupMemberIndex("action");
  }

  lemma G1Resolves()
    ensures ResolveMapped(Group, "group", Dot("resolvtest.myroot.sub1.sub2.leaf1", "group"), Leaf1Raw) == Ok(G1)
  {
    var p := Dot("resolvtest.myroot.sub1.sub2.leaf1", "group");
    assert p == "resolvtest.myroot.sub1.sub2.leaf1.group";
    assert Dot(p, "settings") == p + "." + "settings";
    assert Dot(p, "settings") == "resolvtest.myroot.sub1.sub2.leaf1.group.settings";
    assert Dot(p, "action") == p + "." + "action";
    assert Dot(p, "action") == "resolvtest.myroot.sub1.sub2.leaf1.group.action";
    GroupMembersAre();
    GroupMemberIndex("settings");
    GroupMemberIndex("action");
    PlainEntry(Group.members, p, "settings", BrakeOff, 0);
    PlainEntry(Group.members, p, "action", Str("go"), 1);
    TwoKeyInstance(Group, "group", p, KV("settings", BrakeOff), KV("action", Str("go")), G1.instances[0].entries[0], G1.instances[0].entries[1]);
  }

  /** `settings: {clutch: on}` alone under the section at `path`. */
  lemma ClutchResolves(path: string, g: Override)
    requires g == Mapped("StructRMappedGroup", "group", Dot(path, "group"), Leaf2Raw,
      [Instance([Plain("StructRSettings", "settings", Dot(Dot(path, "group"), "settings"), ClutchOn)])])
    ensures ResolveMapped(Group, "group", Dot(path, "group"), Leaf2Raw) == Ok(g)
  {
    GroupMembersAre();
    GroupMemberIndex("settings");
    PlainEntry(Group.members, Dot(path, "group"), "settings", ClutchOn, 0);
    OneKeyInstance(Group, "group", Dot(path, "group"), KV("settings", ClutchOn), g.instances[0].entries[0]);
  }

  lemma Leaf1Keys()
    ensures forall k :: 0 <= k < |Leaf1Raw.entries| ==> Classify(Reg, Leaf1Raw.entries[k].key, Leaf1Raw.entries[k].val) == MemberKey(0)
  {
    MemberKeys();
  }

  lemma Leaf2Keys()
    ensures forall k :: 0 <= k < |Leaf2Raw.entries| ==> Classify(Reg, Leaf2Raw.entries[k].key, Leaf2Raw.entries[k].val) == MemberKey(0)
  {
    MemberKeys();
  }

  lemma L1Builds()
    ensures BuildSection(Reg, "resolvtest", Some("sub2"), "leaf1", Dot("resolvtest.myroot.sub1.sub2", "leaf1"), Leaf1Raw) == Ok(L1)
  {
    assert Dot("resolvtest.myroot.sub1.sub2", "leaf1") == "resolvtest.myroot.sub1.sub2" + "." + "leaf1";
    assert Dot("resolvtest.myroot.sub1.sub2", "leaf1") == "resolvtest.myroot.sub1.sub2.leaf1";
    Leaf1Keys();
    G1Resolves();
    GroupLeaf("resolvtest", "sub2", "leaf1", "resolvtest.myroot.sub1.sub2.leaf1", Leaf1Raw, G1);
  }

  lemma L2Dots()
    ensures Dot("resolvtest.myroot.sub1.sub2", "leaf2") == "resolvtest.myroot.sub1.sub2.leaf2"
    ensures Dot("resolvtest.myroot.sub1.sub2.leaf2", "group") == "resolvtest.myroot.sub1.sub2.leaf2.group"
    ensures Dot("resolvtest.myroot.sub1.sub2.leaf2.group", "settings") == "resolvtest.myroot.sub1.sub2.leaf2.group.settings"
  {
    assert Dot("resolvtest.myroot.sub1.sub2", "leaf2") == "resolvtest.myroot.sub1.sub2" + "." + "leaf2";
    assert Dot("resolvtest.myroot.sub1.sub2.leaf2", "group") == "resolvtest.myroot.sub1.sub2.leaf2" + "." + "group";
    assert Dot("resolvtest.myroot.sub1.sub2.leaf2.group", "settings") == "resolvtest.myroot.sub1.sub2.leaf2.group" + "." + "settings";
  }

  lemma L2Builds()
    ensures BuildSection(Reg, "resolvtest", Some("sub2"), "leaf2", Dot("resolvtest.myroot.sub1.sub2", "leaf2"), Leaf2Raw) == Ok(L2)
  {
    var p := "resolvtest.myroot.sub1.sub2.leaf2";
    L2Dots();
    Leaf2Keys();
    ClutchResolves(p, G2);
    GroupLeaf("resolvtest", "sub2", "leaf2", p, Leaf2Raw, G2);
  }

  lemma L3Dots()
    ensures Dot("resolvtest.myroot.sub3", "leaf3") == "resolvtest.myroot.sub3.leaf3"
    ensures Dot("resolvtest.myroot.sub3.leaf3", "group") == "resolvtest.myroot.sub3.leaf3.group"
    ensures Dot("resolvtest.myroot.sub3.leaf3.group", "settings") == "resolvtest.myroot.sub3.leaf3.group.settings"
  {
    assert Dot("resolvtest.myroot.sub3", "leaf3") == "resolvtest.myroot.sub3" + "." + "leaf3";
    assert Dot("resolvtest.myroot.sub3.leaf3", "group") == "resolvtest.myroot.sub3.leaf3" + "." + "group";
    assert Dot("resolvtest.myroot.sub3.leaf3.group", "settings") == "resolvtest.myroot.sub3.leaf3.group" + "." + "settings";
  }

  lemma L3Builds()
    ensures BuildSection(Reg, "resolvtest", Some("sub3"), "leaf3", Dot("resolvtest.myroot.sub3", "leaf3"), Leaf2Raw) == Ok(L3)
  {
    var p := "resolvtest.myroot.sub3.leaf3";
    L3Dots();
    Leaf2Keys();
    ClutchResolves(p, G3);
    GroupLeaf("resolvtest", "sub3", "leaf3", p, Leaf2Raw, G3);
  }

  lemma Sub2Keys()
    ensures Classify(Reg, "leaf1", Leaf1Raw) == ChildKey && Classify(Reg, "leaf2", Leaf2Raw) == ChildKey
    ensures Leaf1Raw.Map? && Leaf2Raw.Map?
    ensures Sub2Raw == Map([KV("leaf1", Leaf1Raw), KV("leaf2", Leaf2Raw)])
  {
    ChildName("leaf1", Leaf1Raw);
    ChildName("leaf2", Leaf2Raw);
  }

  lemma Sub2Shape(c1: Section, c2: Section)
    requires BuildSection(Reg, "resolvtest", Some("sub2"), "leaf1", Dot("resolvtest.myroot.sub1.sub2", "leaf1"), Leaf1Raw) == Ok(c1)
    requires BuildSection(Reg, "resolvtest", Some("sub2"), "leaf2", Dot("resolvtest.myroot.sub1.sub2", "leaf2"), Leaf2Raw) == Ok(c2)
    ensures BuildSection(Reg, "resolvtest", Some("sub1"), "sub2", "resolvtest.myroot.sub1.sub2", Sub2Raw) ==
      Ok(Section("sub2", "resolvtest.myroot.sub1.sub2", Some("sub1"), "resolvtest", Sub2Raw, [c1, c2], []))
  {
    Sub2Keys();
    TwoChildSection(Reg, "resolvtest", Some("sub1"), "sub2", "resolvtest.myroot.sub1.sub2",
                    KV("leaf1", Leaf1Raw), KV("leaf2", Leaf2Raw), c1, c2);
  }

  lemma Sub2Builds()
    ensures BuildSection(Reg, "resolvtest", Some("sub1"), "sub2", Dot("resolvtest.myroot.sub1", "sub2"), Sub2Raw) == Ok(Sub2)
  {
    assert Dot("resolvtest.myroot.sub1", "sub2") == "resolvtest.myroot.sub1" + "." + "sub2";
    assert Dot("resolvtest.myroot.sub1", "sub2") == "resolvtest.myroot.sub1.sub2";
    L1Builds();
    L2Builds();
    Sub2Shape(L1, L2);
  }

  lemma Sub1Keys()
    ensures Classify(Reg, "sub2", Sub2Raw) == ChildKey && Sub2Raw.Map?
    ensures Sub1Raw == Map([KV("sub2", Sub2Raw)])
  {
    ChildName("sub2", Sub2Raw);
  }

  lemma Sub1Shape(c: Section)
    requires BuildSection(Reg, "resolvtest", Some("sub1"), "sub2", Dot("resolvtest.myroot.sub1", "sub2"), Sub2Raw) == Ok(c)
    ensures BuildSection(Reg, "resolvtest", Some("myroot"), "sub1", "resolvtest.myroot.sub1", Sub1Raw) ==
      Ok(Section("sub1", "resolvtest.myroot.sub1", Some("myroot"), "resolvtest", Sub1Raw, [c], []))
  {
    Sub1Keys();
    OneChildSection(Reg, "resolvtest", Some("myroot"), "sub1", "resolvtest.myroot.sub1", KV("sub2", Sub2Raw), c);
  }

  lemma Sub1Builds()
    ensures BuildSection(Reg, "resolvtest", Some("myroot"), "sub1", Dot("resolvtest.myroot", "sub1"), Sub1Raw) == Ok(Sub1)
  {
    assert Dot("resolvtest.myroot", "sub1") == "resolvtest.myroot" + "." + "sub1";
    assert Dot("resolvtest.myroot", "sub1") == "resolvtest.myroot.sub1";
    Sub2Builds();
    Sub1Shape(Sub2);
  }

  lemma Sub3Keys()
    ensures Classify(Reg, "leaf3", Leaf2Raw) == ChildKey && Leaf2Raw.Map?
    ensures Sub3Raw == Map([KV("leaf3", Leaf2Raw)])
  {
    ChildName("leaf3", Leaf2Raw);
  }

  lemma Sub3Shape(c: Section)
    requires BuildSection(Reg, "resolvtest", Some("sub3"), "leaf3", Dot("resolvtest.myroot.sub3", "leaf3"), Leaf2Raw) == Ok(c)
    ensures BuildSection(Reg, "resolvtest", Some("myroot"), "sub3", "resolvtest.myroot.sub3", Sub3Raw) ==
      Ok(Section("sub3", "resolvtest.myroot.sub3", Some("myroot"), "resolvtest", Sub3Raw, [c], []))
  {
    Sub3Keys();
    OneChildSection(Reg, "resolvtest", Some("myroot"), "sub3", "resolvtest.myroot.sub3", KV("leaf3", Leaf2Raw), c);
  }

  lemma Sub3Builds()
    ensures BuildSection(Reg, "resolvtest", Some("myroot"), "sub3", Dot("resolvtest.myroot", "sub3"), Sub3Raw) == Ok(Sub3)
  {
    assert Dot("resolvtest.myroot", "sub3") == "resolvtest.myroot" + "." + "sub3";
    assert Dot("resolvtest.myroot", "sub3") == "resolvtest.myroot.sub3";
    L3Builds();
    Sub3Shape(L3);
  }

  lemma MyRootKeys()
    ensures Classify(Reg, "sub1", Sub1Raw) == ChildKey && Classify(Reg, "sub3", Sub3Raw) == ChildKey
    ensures Sub1Raw.Map? && Sub3Raw.Map?
    ensures MyRootRaw == Map([KV("sub1", Sub1Raw), KV("sub3", Sub3Raw)])
  {
    ChildName("sub1", Sub1Raw);
    ChildName("sub3", Sub3Raw);
  }

  lemma MyRootShape(c1: Section, c2: Section)
    requires BuildSection(Reg, "resolvtest", Some("myroot"), "sub1", Dot("resolvtest.myroot", "sub1"), Sub1Raw) == Ok(c1)
    requires BuildSection(Reg, "resolvtest", Some("myroot"), "sub3", Dot("resolvtest.myroot", "sub3"), Sub3Raw) == Ok(c2)
    ensures BuildSection(Reg, "resolvtest", Some("resolvtest"), "myroot", "resolvtest.myroot", MyRootRaw) ==
      Ok(Section("myroot", "resolvtest.myroot", Some("resolvtest"), "resolvtest", MyRootRaw, [c1, c2], []))
  {
    MyRootKeys();
    TwoChildSection(Reg, "resolvtest", Some("resolvtest"), "myroot", "resolvtest.myroot",
                    KV("sub1", Sub1Raw), KV("sub3", Sub3Raw), c1, c2);
  }

  lemma MyRootBuilds()
    ensures BuildSection(Reg, "resolvtest", Some("resolvtest"), "myroot", Dot("resolvtest", "myroot"), MyRootRaw) == Ok(MyRoot)
  {
    assert Dot("resolvtest", "myroot") == "resolvtest" + "." + "myroot";
    assert Dot("resolvtest", "myroot") == "resolvtest.myroot";
    Sub1Builds();
    Sub3Builds();
    MyRootShape(Sub1, Sub3);
  }

  lemma TreeBuilds()
    ensures Build("resolvtest", Doc, Reg) == Ok(Tree)
  {
    MyRootBuilds();
    GroupRootBuilds("resolvtest", "myroot", MyRootRaw, MyRoot);
  }

  /** Leaves come out depth first in document order. */
  lemma TreeLeaves()
    ensures LeafSections(Tree) == [L1, L2, L3]
  {
    LeavesOfTwo(Sub2, L1, L2);
    LeavesOfOne(Sub1, Sub2);
    LeavesOfOne(Sub3, L3);
    LeavesOfTwo(MyRoot, Sub1, Sub3);
    LeavesOfOne(Tree, MyRoot);
  }

  lemma GroupsFound()
    ensures Sections.Get(L1, "group") == Some(G1)
    ensures Sections.Get(L2, "group") == Some(G2)
    ensures Sections.Get(L3, "group") == Some(G3)
  {
    PlainAttr("group");
  }

  /** The records the test expects for leaf1, leaf2 and leaf3. */
  const Rec1 := ["resolvtest.myroot.sub1.sub2.leaf1",
                 "resolvtest.myroot.sub1.sub2.leaf1.group",
                 "resolvtest.myroot.sub1.sub2.leaf1.group.settings",
                 "resolvtest.myroot.sub1.sub2.leaf1.group.action"]
  const Rec2 := ["resolvtest.myroot.sub1.sub2.leaf2",
                 "resolvtest.myroot.sub1.sub2.leaf2.group",
                 "resolvtest.myroot.sub1.sub2.leaf2.group.settings"]
  const Rec3 := ["resolvtest.myroot.sub3.leaf3",
                 "resolvtest.myroot.sub3.leaf3.group",
                 "resolvtest.myroot.sub3.leaf3.group.settings"]

  lemma ExpectedParts()
    ensures Expected == Rec1 + Rec2 + Rec3
  {
  }

  lemma L1Paths()
    ensures Sections.Get(L1, "group").Some? && LeafPaths(L1) == Rec1
  {
    GroupsFound();
    MembersOfOne(G1);
  }

  lemma L2Paths()
    ensures Sections.Get(L2, "group").Some? && LeafPaths(L2) == Rec2
  {
    GroupsFound();
    MembersOfOne(G2);
  }

  lemma L3Paths()
    ensures Sections.Get(L3, "group").Some? && LeafPaths(L3) == Rec3
  {
    GroupsFound();
    MembersOfOne(G3);
  }

  lemma ListingOfOne(a: Section)
    requires Sections.Get(a, "group").Some?
    ensures AllHave([a], "group")
    ensures Listing([a]) == LeafPaths(a)
  {
    assert [a][..0] == [];
  }

  lemma ListingOfTwo(a: Section, b: Section)
    requires AllHave([a], "group") && Sections.Get(b, "group").Some?
    ensures AllHave([a, b], "group")
    ensures Listing([a, b]) == Listing([a]) + LeafPaths(b)
  {
    assert [a, b][..1] == [a];
  }

  lemma ListingOfThree(a: Section, b: Section, c: Section)
    requires AllHave([a, b], "group") && Sections.Get(c, "group").Some?
    ensures AllHave([a, b, c], "group")
    ensures Listing([a, b, c]) == Listing([a, b]) + LeafPaths(c)
  {
    assert [a, b, c][..2] == [a, b];
  }

  lemma ListingIsExpected()
    ensures AllHave([L1, L2, L3], "group")
    ensures Listing([L1, L2, L3]) == Expected
  {
    L1Paths();
    L2Paths();
    L3Paths();
    ListingOfOne(L1);
    ListingOfTwo(L1, L2);
    ListingOfThree(L1, L2, L3);
    ExpectedParts();
  }

  /**
   * The tree builds, its leaves are leaf1, leaf2, leaf3 in that order, each
   * holds a `group` although no `group` key appears, and the recorded paths
   * are exactly the ten the test expects.
   */
  lemma PathsScenarioHolds()
    ensures Build("resolvtest", Doc, Reg) == Ok(Tree)
    ensures LeafSections(Tree) == [L1, L2, L3]
    ensures AllHave(LeafSections(Tree), "group")
    ensures Listing(LeafSections(Tree)) == Expected
  {
    TreeBuilds();
    TreeLeaves();
    ListingIsExpected();
  }

  /** The resolve-paths test: build, walk the leaves, record the paths. */
  method ResolvePathsTest() returns (resolved: seq<string>)
    ensures resolved == Expected
  {
    PathsScenarioHolds();
    resolved := ResolvedPaths(Tree);
  }
}
