/**
 * Hyphenated aliases (tests/unit/test_ystruct.py:146-186): one handler
 * recognises both `message` and `message-alt`; the two keys in one section
 * yield two overrides in key order, the second read as `message_alt`, and a
 * section without the second key has no `message_alt` at all.
 */
module MessageScenario {
  import opened Wrappers
  import opened Document
  import opened Registry
  import opened Paths
  import opened Overrides
  import opened OverrideAccess
  import opened Sections
  import opened BuildSteps

  const RootName := "fruit tastiness"
  const Cider := Str("they make good cider.")
  const Juice := Str("they make good juice.")
  const Marmalade := Str("and good marmalade.")
  const TastyRaw := Map([KV("message", Cider)])
  const OrangesRaw := Map([KV("message", Juice), KV("message-alt", Marmalade)])
  const Doc := Map([KV("tasty", TastyRaw), KV("oranges", OrangesRaw)])
  const Reg := [Message]

  const Msg1 := Plain("StructRMessage", "message", "fruit tastiness.tasty.message", Cider)
  const Msg2 := Plain("StructRMessage", "message", "fruit tastiness.oranges.message", Juice)
  const Alt2 := Plain("StructRMessage", "message-alt", "fruit tastiness.oranges.message-alt", Marmalade)
  const Tasty := OneOverrideLeaf(RootName, "tasty", "message", Cider, Msg1)
  const Oranges := Section("oranges", "fruit tastiness.oranges", Some(RootName), RootName, OrangesRaw, [], [Msg2, Alt2])
  const Tree := Section(RootName, RootName, None, RootName, Doc, [Tasty, Oranges], [])

  lemma AltName()
    ensures AttrName("message-alt") == "message_alt"
  {
  }

  lemma TastyBuilds()
    ensures BuildSection(Reg, RootName, Some(RootName), "tasty", Dot(RootName, "tasty"), TastyRaw) == Ok(Tasty)
  {
    assert Dot(RootName, "tasty") == RootName + "." + "tasty";
    assert Dot(RootName, "tasty") == "fruit tastiness.tasty";
    assert Dot("fruit tastiness.tasty", "message") == "fruit tastiness.tasty" + "." + "message";
    assert Dot("fruit tastiness.tasty", "message") == "fruit tastiness.tasty.message";
    assert ResolveIndex(Reg, "message") == Some(0);
    OneOverrideBuilds(Reg, RootName, "tasty", "message", Cider, 0, Msg1);
  }

  lemma OrangesExplicit(path: string)
    requires path == "fruit tastiness.oranges"
    ensures ExplicitOverrides(Reg, path, [KV("message", Juice), KV("message-alt", Marmalade)], 0) == Ok([Msg2, Alt2])
  {
    assert Dot(path, "message") == path + "." + "message";
    assert Dot(path, "message") == "fruit tastiness.oranges.message";
    assert Dot(path, "message-alt") == path + "." + "message-alt";
    assert Dot(path, "message-alt") == "fruit tastiness.oranges.message-alt";
    assert ResolveIndex(Reg, "message") == Some(0);
    assert ResolveIndex(Reg, "message-alt") == Some(0);
    TwoExplicit(Reg, path, KV("message", Juice), KV("message-alt", Marmalade), 0, 0, Msg2, Alt2);
  }

  lemma OrangesBuilds()
    ensures BuildSection(Reg, RootName, Some(RootName), "oranges", Dot(RootName, "oranges"), OrangesRaw) == Ok(Oranges)
  {
    var path := Dot(RootName, "oranges");
    assert path == "fruit tastiness.oranges";
    OrangesExplicit(path);
    assert Classify(Reg, "message", Juice) == OverrideKey(0);
    assert Classify(Reg, "message-alt", Marmalade) == OverrideKey(0);
    OverridesOnly(Reg, RootName, Some(RootName), "oranges", path, OrangesRaw, [Msg2, Alt2]);
  }

  lemma RootKeys()
    ensures Classify(Reg, "tasty", TastyRaw) == ChildKey && Classify(Reg, "oranges", OrangesRaw) == ChildKey
    ensures TastyRaw.Map? && OrangesRaw.Map?
    ensures Doc == Map([KV("tasty", TastyRaw), KV("oranges", OrangesRaw)])
  {
    assert ResolveIndex(Reg, "tasty").None? && ResolveIndex(Reg, "oranges").None?;
  }

  lemma RootShape(c1: Section, c2: Section)
    requires BuildSection(Reg, RootName, Some(RootName), "tasty", Dot(RootName, "tasty"), TastyRaw) == Ok(c1)
    requires BuildSection(Reg, RootName, Some(RootName), "oranges", Dot(RootName, "oranges"), OrangesRaw) == Ok(c2)
    ensures Build(RootName, Doc, Reg) == Ok(Section(RootName, RootName, None, RootName, Doc, [c1, c2], []))
  {
    RootKeys();
    TwoChildSection(Reg, RootName, None, RootName, RootName, KV("tasty", TastyRaw), KV("oranges", OrangesRaw), c1, c2);
  }

  lemma TreeBuilds()
    ensures Build(RootName, Doc, Reg) == Ok(Tree)
  {
    TastyBuilds();
    OrangesBuilds();
    RootShape(Tasty, Oranges);
  }

  lemma TreeLeaves()
    ensures LeafSections(Tree) == [Tasty, Oranges]
  {
    LeavesOfTwo(Tree, Tasty, Oranges);
  }

  lemma TastyFound()
    ensures Sections.Get(Tasty, "message") == Some(Msg1)
    ensures Sections.Get(Tasty, "message_alt") == None
  {
    PlainAttr("message");
  }

  lemma OrangesMessage()
    ensures Sections.Get(Oranges, "message") == Some(Msg2)
  {
    PlainAttr("message");
    GetAt(Oranges, "message", 0);
  }

  lemma OrangesAlt()
    ensures Sections.Get(Oranges, "message_alt") == Some(Alt2)
  {
    AltName();
    assert |AttrName(Msg2.Name())| != |"message_alt"|;
    GetAt(Oranges, "message_alt", 1);
  }

  lemma OrangesFound()
    ensures Sections.Get(Oranges, "message") == Some(Msg2)
    ensures Sections.Get(Oranges, "message_alt") == Some(Alt2)
  {
    OrangesMessage();
    OrangesAlt();
  }

  /**
   * Both leaves are found; `tasty` reads its message and has no
   * `message_alt`; `oranges` reads both, `message-alt` under `message_alt`.
   */
  lemma MessageScenarioHolds()
    ensures Build(RootName, Doc, Reg) == Ok(Tree)
    ensures LeafSections(Tree) == [Tasty, Oranges]
    ensures Sections.Get(Tasty, "message") == Some(Msg1) && Content(Msg1) == Cider
    ensures Sections.Get(Tasty, "message_alt") == None
    ensures Sections.Get(Oranges, "message") == Some(Msg2) && Content(Msg2) == Juice
    ensures Sections.Get(Oranges, "message_alt") == Some(Alt2) && Content(Alt2) == Marmalade
  {
    TreeBuilds();
    TreeLeaves();
    TastyFound();
    OrangesFound();
  }
}
