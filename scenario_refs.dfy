/**
 * A leaf-style family (tests/unit/test_ystruct.py:117-141, :341-370):
 * `refs: [{or: ref1, and: [ref2, ref3]}, ref4]`. Bare strings are
 * terminals, the logical operators hold only terminals, and walking the
 * family reaches exactly ref1 to ref4.
 */
module RefsScenario {
  import opened Wrappers
  import opened Document
  import opened Registry
  import opened Paths
  import opened Overrides
  import opened OverrideAccess
  import opened Sections
  import opened BuildSteps

  const P := "mgtest.item1.refs"
  const AndList := List([Str("ref2"), Str("ref3")])
  const FirstItem := Map([KV("or", Str("ref1")), KV("and", AndList)])
  const RefsList := List([FirstItem, Str("ref4")])

  const Ref1 := Terminal("ref1", "mgtest.item1.refs.or.ref1")
  const Ref2 := Terminal("ref2", "mgtest.item1.refs.and.ref2")
  const Ref3 := Terminal("ref3", "mgtest.item1.refs.and.ref3")
  const Ref4 := Terminal("ref4", "mgtest.item1.refs.ref4")
  const OrRefs := Mapped("StructRMappedRefsLogicalOpt", "or", "mgtest.item1.refs.or", Str("ref1"), [Instance([Ref1])])
  const AndRefs := Mapped("StructRMappedRefsLogicalOpt", "and", "mgtest.item1.refs.and", AndList, [Instance([Ref2, Ref3])])
  const R := Mapped("StructRMappedRefs", "refs", P, RefsList, [Instance([OrRefs, AndRefs]), Instance([Ref4])])
  const Doc := Map([KV("item1", Map([KV("refs", RefsList)]))])
  const Leaf := OneOverrideLeaf("mgtest", "item1", "refs", RefsList, R)

  lemma OrResolves()
    ensures ResolveEntry(Refs.members, P, "or", Str("ref1")) == Ok(OrRefs)
  {
    assert ResolveIndex(Refs.members, "or") == Some(0);
    assert Dot(P, "or") == P + "." + "or";
    assert Dot(P, "or") == "mgtest.item1.refs.or";
    assert Dot("mgtest.item1.refs.or", "ref1") == "mgtest.item1.refs.or" + "." + "ref1";
    assert Dot("mgtest.item1.refs.or", "ref1") == "mgtest.item1.refs.or.ref1";
    MappedEntry(Refs.members, P, "or", Str("ref1"), 0);
  }

  lemma AndItems()
    ensures Collapsed(RefsLogicalOpt.members, "mgtest.item1.refs.and", AndList, 0) == Ok([Ref2, Ref3])
  {
    var pa := "mgtest.item1.refs.and";
    assert Dot(pa, "ref2") == pa + "." + "ref2";
    assert Dot(pa, "ref2") == "mgtest.item1.refs.and.ref2";
    assert Dot(pa, "ref3") == pa + "." + "ref3";
    assert Dot(pa, "ref3") == "mgtest.item1.refs.and.ref3";
    assert ItemEntries(RefsLogicalOpt.members, pa, Str("ref2")) == Ok([Ref2]);
    assert ItemEntries(RefsLogicalOpt.members, pa, Str("ref3")) == Ok([Ref3]);
    TwoCollapsed(RefsLogicalOpt.members, pa, Str("ref2"), Str("ref3"), [Ref2], [Ref3]);
    assert [Ref2] + [Ref3] == [Ref2, Ref3];
  }

  lemma AndResolves()
    ensures ResolveEntry(Refs.members, P, "and", AndList) == Ok(AndRefs)
  {
    assert ResolveIndex(Refs.members, "and") == Some(0);
    assert Dot(P, "and") == P + "." + "and";
    assert Dot(P, "and") == "mgtest.item1.refs.and";
    AndItems();
    assert Collapses(AndList.items);
    MappedEntry(Refs.members, P, "and", AndList, 0);
  }

  lemma FirstItemResolves()
    ensures ItemEntries(Refs.members, P, FirstItem) == Ok([OrRefs, AndRefs])
  {
    OrResolves();
    AndResolves();
    TwoEntries(Refs.members, P, KV("or", Str("ref1")), KV("and", AndList), OrRefs, AndRefs);
  }

  lemma RefsItems()
    ensures EachItem(Refs.members, P, RefsList, 0) == Ok([Instance([OrRefs, AndRefs]), Instance([Ref4])])
  {
    FirstItemResolves();
    assert Dot(P, "ref4") == P + "." + "ref4";
    assert Dot(P, "ref4") == "mgtest.item1.refs.ref4";
    assert ItemEntries(Refs.members, P, Str("ref4")) == Ok([Ref4]);
    TwoEach(Refs.members, P, FirstItem, Str("ref4"), [OrRefs, AndRefs], [Ref4]);
  }

  /** The two-key mapping keeps the list from collapsing: one instance per item. */
  lemma RefsResolve()
    ensures ResolveWith(Refs, "refs", P, RefsList) == Ok(R)
  {
    RefsItems();
    assert !Collapsible(RefsList.items[0]);
  }

  lemma RefsTree()
    ensures Build("mgtest", Doc, [Refs]) == Ok(Section("mgtest", "mgtest", None, "mgtest", Doc, [Leaf], []))
    ensures LeafSections(Section("mgtest", "mgtest", None, "mgtest", Doc, [Leaf], [])) == [Leaf]
  {
    assert Dot("mgtest", "item1") == "mgtest" + "." + "item1";
    assert Dot("mgtest", "item1") == "mgtest.item1";
    assert Dot("mgtest.item1", "refs") == "mgtest.item1" + "." + "refs";
    assert Dot("mgtest.item1", "refs") == P;
    RefsResolve();
    assert ResolveIndex(Refs.members, "item1").None?;
    OneOverrideTree([Refs], "mgtest", "item1", "refs", RefsList, 0, R);
  }

  lemma RefsLeaves()
    ensures FlatLeaves(R) == [Ref1, Ref2, Ref3, Ref4]
  {
    FlatTwoEntries(R.instances[0]);
    FlatOneInstance(OrRefs);
    assert FlatEntries(OrRefs.instances[0], 1) == [];
    FlatOneInstance(AndRefs);
    FlatTwoEntries(AndRefs.instances[0]);
    assert FlatEntries(R.instances[1], 1) == [];
    assert FlatLeaves(Ref4) == [Ref4];
    assert FlatEntries(R.instances[1], 0) == [Ref4] + [];
    assert FlatInstances(R, 2) == [];
    assert FlatInstances(R, 1) == [Ref4] + [];
    assert FlatEntries(R.instances[0], 0) == [Ref1, Ref2, Ref3];
  }

  /**
   * The document builds to one leaf holding `refs`; every item of every
   * instance is named `and`, `or` or `ref4`; the `or` and `and` items each
   * have one instance; and the names reached by walking the family are
   * exactly ref1, ref2, ref3 and ref4.
   */
  lemma RefsScenarioHolds()
    ensures Build("mgtest", Doc, [Refs]) == Ok(Section("mgtest", "mgtest", None, "mgtest", Doc, [Leaf], []))
    ensures LeafSections(Section("mgtest", "mgtest", None, "mgtest", Doc, [Leaf], [])) == [Leaf]
    ensures Leaf.overrides == [R]
    ensures forall i, j :: 0 <= i < |R.instances| && 0 <= j < |R.instances[i].entries| ==>
      R.instances[i].entries[j].Name() in {"and", "or", "ref4"}
    ensures |OrRefs.instances| == 1 && |AndRefs.instances| == 1
    ensures NamesOf(FlatLeaves(R)) == ["ref1", "ref2", "ref3", "ref4"]
  {
    RefsTree();
    RefsShape();
  }

  lemma RefsShape()
    ensures forall i, j :: 0 <= i < |R.instances| && 0 <= j < |R.instances[i].entries| ==>
      R.instances[i].entries[j].Name() in {"and", "or", "ref4"}
    ensures |OrRefs.instances| == 1 && |AndRefs.instances| == 1
    ensures NamesOf(FlatLeaves(R)) == ["ref1", "ref2", "ref3", "ref4"]
  {
    RefsLeaves();
  }

  /** The client loop of the refs test: the names gathered by walking `refs`. */
  method RefsNames() returns (names: seq<string>)
    ensures multiset(names) == multiset{"ref1", "ref2", "ref3", "ref4"}
  {
    RefsResolve();
    ResolveWithOk(Refs, "refs", P, RefsList);
    ResolvedTyped(R, Refs, "refs", P, RefsList);
    RefsAreShallow(R);
    var leaves := GatherLeaves(R);
    RefsScenarioHolds();
    names := NamesOf(leaves);
  }
}
