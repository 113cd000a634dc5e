/**
 * Unfolding steps of the builder and of the accessors, stated once over
 * arbitrary arguments so that the concrete documents of the test module can
 * be evaluated piece by piece.
 */
module BuildSteps {
  import opened Wrappers
  import opened Document
  import opened Registry
  import opened Paths
  import opened Overrides
  import opened OverrideAccess
  import opened Sections
  import opened Seqs

  // Overrides and instances.

  lemma PlainEntry(members: seq<Handler>, path: string, key: string, val: Value, k: nat)
    requires ResolveIndex(members, key) == Some(k) && !members[k].mapped
    ensures ResolveEntry(members, path, key, val) == Ok(Plain(members[k].cls, key, Dot(path, key), val))
  {
  }

  lemma MappedEntry(members: seq<Handler>, path: string, key: string, val: Value, k: nat)
    requires ResolveIndex(members, key) == Some(k) && members[k].mapped
    ensures ResolveEntry(members, path, key, val) == ResolveMapped(members[k], key, Dot(path, key), val)
  {
  }

  lemma OneEntry(members: seq<Handler>, path: string, kv: KV, e: Override)
    requires ResolveEntry(members, path, kv.key, kv.val) == Ok(e)
    ensures ResolveEntries(members, path, Map([kv]), 0) == Ok([e])
  {
    assert ResolveEntries(members, path, Map([kv]), 1) == Ok([]);
    assert [e] + [] == [e];
  }

  lemma TwoEntries(members: seq<Handler>, path: string, kv1: KV, kv2: KV, e1: Override, e2: Override)
    requires ResolveEntry(members, path, kv1.key, kv1.val) == Ok(e1)
    requires ResolveEntry(members, path, kv2.key, kv2.val) == Ok(e2)
    ensures ResolveEntries(members, path, Map([kv1, kv2]), 0) == Ok([e1, e2])
  {
    var m := Map([kv1, kv2]);
    assert ResolveEntries(members, path, m, 2) == Ok([]);
    assert [e2] + [] == [e2];
    assert ResolveEntries(members, path, m, 1) == Ok([e2]);
    assert [e1] + [e2] == [e1, e2];
  }

  lemma TwoCollapsed(members: seq<Handler>, path: string, a: Value, b: Value, x: seq<Override>, y: seq<Override>)
    requires ItemEntries(members, path, a) == Ok(x) && ItemEntries(members, path, b) == Ok(y)
    ensures Collapsed(members, path, List([a, b]), 0) == Ok(x + y)
  {
    var l := List([a, b]);
    assert Collapsed(members, path, l, 2) == Ok([]);
    assert y + [] == y;
    assert l.items[1] == b;
    assert Collapsed(members, path, l, 1) == Ok(y);
  }

  lemma TwoEach(members: seq<Handler>, path: string, a: Value, b: Value, x: seq<Override>, y: seq<Override>)
    requires ItemEntries(members, path, a) == Ok(x) && ItemEntries(members, path, b) == Ok(y)
    ensures EachItem(members, path, List([a, b]), 0) == Ok([Instance(x), Instance(y)])
  {
    var l := List([a, b]);
    assert EachItem(members, path, l, 2) == Ok([]);
    assert l.items[1] == b;
    assert [Instance(y)] + [] == [Instance(y)];
    assert EachItem(members, path, l, 1) == Ok([Instance(y)]);
    assert [Instance(x)] + [Instance(y)] == [Instance(x), Instance(y)];
  }

  /** A mapping of one key resolves to one instance holding that key's entry. */
  lemma OneKeyInstance(h: Handler, alias: string, path: string, kv: KV, e: Override)
    requires h.mapped && ResolveEntry(h.members, path, kv.key, kv.val) == Ok(e)
    ensures ResolveWith(h, alias, path, Map([kv])) == Ok(Mapped(h.cls, alias, path, Map([kv]), [Instance([e])]))
  {
    OneEntry(h.members, path, kv, e);
  }

  /** A mapping of two keys resolves to one instance holding both entries in key order. */
  lemma TwoKeyInstance(h: Handler, alias: string, path: string, kv1: KV, kv2: KV, e1: Override, e2: Override)
    requires h.mapped
    requires ResolveEntry(h.members, path, kv1.key, kv1.val) == Ok(e1)
    requires ResolveEntry(h.members, path, kv2.key, kv2.val) == Ok(e2)
    ensures ResolveWith(h, alias, path, Map([kv1, kv2])) == Ok(Mapped(h.cls, alias, path, Map([kv1, kv2]), [Instance([e1, e2])]))
  {
    TwoEntries(h.members, path, kv1, kv2, e1, e2);
  }

  lemma MembersOfOne(o: Override)
    requires o.Mapped? && |o.instances| == 1
    ensures Members(o) == o.instances[0].entries
  {
    assert Flatten(o.instances[1..]) == [];
    assert o.instances[0].entries + [] == o.instances[0].entries;
  }

  /** Attribute `attr` on a one-instance override: the entries of that instance named `attr`. */
  lemma CollectInstance(o: Override, attr: string, es: seq<Override>)
    requires o.Mapped? && o.instances == [Instance(es)]
    ensures Collect([o], attr) == Named(es, attr)
  {
    MembersOfOne(o);
    CollectOne(o, attr);
  }

  /** Attribute access on a collection is defined exactly when something is collected. */
  lemma GetCollected(os: seq<Override>, attr: string, r: seq<Override>)
    requires Collect(os, attr) == r
    ensures |r| > 0 ==> OverrideAccess.Get(os, attr) == Some(r)
    ensures |r| == 0 ==> OverrideAccess.Get(os, attr) == None
  {
  }

  lemma {:induction false} NamedAll(es: seq<Override>, attr: string)
    requires forall k :: 0 <= k < |es| ==> AttrName(es[k].Name()) == attr
    ensures Named(es, attr) == es
  {
    if |es| > 0 {
      NamedAll(es[1..], attr);
      assert [es[0]] + es[1..] == es;
    }
  }

  lemma {:induction false} NamedNone(es: seq<Override>, attr: string)
    requires forall k :: 0 <= k < |es| ==> AttrName(es[k].Name()) != attr
    ensures Named(es, attr) == []
  {
    if |es| > 0 {
      NamedNone(es[1..], attr);
    }
  }

  /** Attribute access finds the override at `k` when it is the first one read as `attr`. */
  lemma GetAt(s: Section, attr: string, k: nat)
    requires k < |s.overrides| && AttrName(s.overrides[k].Name()) == attr
    requires forall j :: 0 <= j < k ==> AttrName(s.overrides[j].Name()) != attr
    ensures Sections.Get(s, attr) == Some(s.overrides[k])
  {
    var r := FirstNamed(s.overrides, attr);
    assert r.Some?;
    assert r.value == k;
  }

  lemma FlatOneInstance(o: Override)
    requires o.Mapped? && |o.instances| == 1
    ensures FlatLeaves(o) == FlatEntries(o.instances[0], 0)
  {
    assert FlatInstances(o, 1) == [];
    assert FlatEntries(o.instances[0], 0) + [] == FlatEntries(o.instances[0], 0);
  }

  lemma FlatTwoEntries(inst: Instance)
    requires |inst.entries| == 2
    ensures FlatEntries(inst, 0) == FlatLeaves(inst.entries[0]) + FlatLeaves(inst.entries[1])
  {
    assert FlatEntries(inst, 2) == [];
    assert FlatLeaves(inst.entries[1]) + [] == FlatLeaves(inst.entries[1]);
  }

  // Sections.

  lemma {:induction false} ChildrenNone(reg: seq<Handler>, rootName: string, parentName: string, path: string, raw: Value, i: nat)
    requires raw.Map? && i <= |raw.entries|
    requires forall k :: i <= k < |raw.entries| ==> !Classify(reg, raw.entries[k].key, raw.entries[k].val).ChildKey?
    ensures BuildChildren(reg, rootName, parentName, path, raw, i) == Ok([])
    decreases |raw.entries| - i
  {
    if i < |raw.entries| {
      ChildrenNone(reg, rootName, parentName, path, raw, i + 1);
    }
  }

  lemma {:induction false} ExplicitNone(reg: seq<Handler>, path: string, es: seq<KV>, i: nat)
    requires i <= |es|
    requires forall k :: i <= k < |es| ==> !Classify(reg, es[k].key, es[k].val).OverrideKey?
    ensures ExplicitOverrides(reg, path, es, i) == Ok([])
    decreases |es| - i
  {
    if i < |es| {
      ExplicitNone(reg, path, es, i + 1);
    }
  }

  lemma LooseNone(reg: seq<Handler>, f: nat, es: seq<KV>)
    requires forall k :: 0 <= k < |es| ==> !Classify(reg, es[k].key, es[k].val).MemberKey?
    ensures LooseEntries(reg, f, es) == []
  {
    FilterNone(es, MemberOf(reg, f));
  }

  lemma {:induction false} ImplicitNone(reg: seq<Handler>, path: string, es: seq<KV>, f: nat)
    requires f <= |reg|
    requires forall k :: 0 <= k < |es| ==> !Classify(reg, es[k].key, es[k].val).MemberKey?
    ensures ImplicitOverrides(reg, path, es, f) == Ok([])
    decreases |reg| - f
  {
    if f < |reg| {
      LooseNone(reg, f, es);
      ImplicitNone(reg, path, es, f + 1);
    }
  }

  /** A section is assembled from its children, its explicit and its implicit overrides. */
  lemma SectionOf(reg: seq<Handler>, rootName: string, parent: Option<string>, name: string, path: string, raw: Value,
                  kids: seq<Section>, explicit: seq<Override>, implicit: seq<Override>)
    requires raw.Map?
    requires BuildChildren(reg, rootName, name, path, raw, 0) == Ok(kids)
    requires ExplicitOverrides(reg, path, raw.entries, 0) == Ok(explicit)
    requires ImplicitOverrides(reg, path, raw.entries, 0) == Ok(implicit)
    ensures BuildSection(reg, rootName, parent, name, path, raw) == Ok(Section(name, path, parent, rootName, raw, kids, explicit + implicit))
  {
  }

  /** A section whose every key names a child section. */
  lemma ChildrenOnly(reg: seq<Handler>, rootName: string, parent: Option<string>, name: string, path: string, raw: Value, kids: seq<Section>)
    requires raw.Map?
    requires forall k :: 0 <= k < |raw.entries| ==> Classify(reg, raw.entries[k].key, raw.entries[k].val).ChildKey?
    requires BuildChildren(reg, rootName, name, path, raw, 0) == Ok(kids)
    ensures BuildSection(reg, rootName, parent, name, path, raw) == Ok(Section(name, path, parent, rootName, raw, kids, []))
  {
    ExplicitNone(reg, path, raw.entries, 0);
    ImplicitNone(reg, path, raw.entries, 0);
    SectionOf(reg, rootName, parent, name, path, raw, kids, [], []);
    var none: seq<Override> := [];
    assert none + none == none;
  }

  /** A section whose keys are all recognised by handlers. */
  lemma OverridesOnly(reg: seq<Handler>, rootName: string, parent: Option<string>, name: string, path: string, raw: Value, os: seq<Override>)
    requires raw.Map?
    requires forall k :: 0 <= k < |raw.entries| ==> Classify(reg, raw.entries[k].key, raw.entries[k].val).OverrideKey?
    requires ExplicitOverrides(reg, path, raw.entries, 0) == Ok(os)
    ensures BuildSection(reg, rootName, parent, name, path, raw) == Ok(Section(name, path, parent, rootName, raw, [], os))
  {
    ChildrenNone(reg, rootName, name, path, raw, 0);
    ImplicitNone(reg, path, raw.entries, 0);
    SectionOf(reg, rootName, parent, name, path, raw, [], os, []);
    assert os + [] == os;
  }

  /** One child section built from key `kv`. */
  lemma OneChild(reg: seq<Handler>, rootName: string, parentName: string, path: string, kv: KV, c: Section)
    requires kv.val.Map? && Classify(reg, kv.key, kv.val).ChildKey?
    requires BuildSection(reg, rootName, Some(parentName), kv.key, Dot(path, kv.key), kv.val) == Ok(c)
    ensures BuildChildren(reg, rootName, parentName, path, Map([kv]), 0) == Ok([c])
  {
    assert BuildChildren(reg, rootName, parentName, path, Map([kv]), 1) == Ok([]);
    assert [c] + [] == [c];
  }

  /** Two child sections built from keys `kv1`, `kv2`, in that order. */
  lemma TwoChildren(reg: seq<Handler>, rootName: string, parentName: string, path: string, kv1: KV, kv2: KV, c1: Section, c2: Section)
    requires kv1.val.Map? && Classify(reg, kv1.key, kv1.val).ChildKey?
    requires kv2.val.Map? && Classify(reg, kv2.key, kv2.val).ChildKey?
    requires BuildSection(reg, rootName, Some(parentName), kv1.key, Dot(path, kv1.key), kv1.val) == Ok(c1)
    requires BuildSection(reg, rootName, Some(parentName), kv2.key, Dot(path, kv2.key), kv2.val) == Ok(c2)
    ensures BuildChildren(reg, rootName, parentName, path, Map([kv1, kv2]), 0) == Ok([c1, c2])
  {
    var m := Map([kv1, kv2]);
    assert BuildChildren(reg, rootName, parentName, path, m, 2) == Ok([]);
    assert [c2] + [] == [c2];
    assert BuildChildren(reg, rootName, parentName, path, m, 1) == Ok([c2]);
    assert [c1] + [c2] == [c1, c2];
  }

  /** A section whose one key names a child section. */
  lemma OneChildSection(reg: seq<Handler>, rootName: string, parent: Option<string>, name: string, path: string, kv: KV, c: Section)
    requires kv.val.Map? && Classify(reg, kv.key, kv.val).ChildKey?
    requires BuildSection(reg, rootName, Some(name), kv.key, Dot(path, kv.key), kv.val) == Ok(c)
    ensures BuildSection(reg, rootName, parent, name, path, Map([kv])) == Ok(Section(name, path, parent, rootName, Map([kv]), [c], []))
  {
    OneChild(reg, rootName, name, path, kv, c);
    assert Map([kv]).entries[0] == kv;
    ChildrenOnly(reg, rootName, parent, name, path, Map([kv]), [c]);
  }

  /** A section whose two keys name child sections. */
  lemma TwoChildSection(reg: seq<Handler>, rootName: string, parent: Option<string>, name: string, path: string,
                        kv1: KV, kv2: KV, c1: Section, c2: Section)
    requires kv1.val.Map? && Classify(reg, kv1.key, kv1.val).ChildKey?
    requires kv2.val.Map? && Classify(reg, kv2.key, kv2.val).ChildKey?
    requires BuildSection(reg, rootName, Some(name), kv1.key, Dot(path, kv1.key), kv1.val) == Ok(c1)
    requires BuildSection(reg, rootName, Some(name), kv2.key, Dot(path, kv2.key), kv2.val) == Ok(c2)
    ensures BuildSection(reg, rootName, parent, name, path, Map([kv1, kv2])) ==
      Ok(Section(name, path, parent, rootName, Map([kv1, kv2]), [c1, c2], []))
  {
    TwoChildren(reg, rootName, name, path, kv1, kv2, c1, c2);
    var raw := Map([kv1, kv2]);
    assert raw.entries[0] == kv1 && raw.entries[1] == kv2;
    ChildrenOnly(reg, rootName, parent, name, path, raw, [c1, c2]);
  }

  /** One explicit override from key `kv`. */
  lemma OneExplicit(reg: seq<Handler>, path: string, kv: KV, h: nat, o: Override)
    requires ResolveIndex(reg, kv.key) == Some(h)
    requires ResolveWith(reg[h], kv.key, Dot(path, kv.key), kv.val) == Ok(o)
    ensures ExplicitOverrides(reg, path, [kv], 0) == Ok([o])
  {
    assert ExplicitOverrides(reg, path, [kv], 1) == Ok([]);
    assert [o] + [] == [o];
  }

  // The tree shape most tests use: a root whose one child holds one override.

  /** The section `name` below the root, holding override `o` for its one key `k`. */
  function OneOverrideLeaf(rootName: string, name: string, k: string, v: Value, o: Override): Section
  {
    Section(name, Dot(rootName, name), Some(rootName), rootName, Map([KV(k, v)]), [], [o])
  }

  lemma OneOverrideExplicit(reg: seq<Handler>, path: string, k: string, v: Value, h: nat, o: Override)
    requires ResolveIndex(reg, k) == Some(h)
    requires ResolveWith(reg[h], k, Dot(path, k), v) == Ok(o)
    ensures ExplicitOverrides(reg, path, Map([KV(k, v)]).entries, 0) == Ok([o])
  {
    OneExplicit(reg, path, KV(k, v), h, o);
  }

  lemma OneOverrideBuilds(reg: seq<Handler>, rootName: string, name: string, k: string, v: Value, h: nat, o: Override)
    requires ResolveIndex(reg, k) == Some(h)
    requires ResolveWith(reg[h], k, Dot(Dot(rootName, name), k), v) == Ok(o)
    ensures BuildSection(reg, rootName, Some(rootName), name, Dot(rootName, name), Map([KV(k, v)])) == Ok(OneOverrideLeaf(rootName, name, k, v, o))
  {
    var raw := Map([KV(k, v)]);
    OneOverrideExplicit(reg, Dot(rootName, name), k, v, h, o);
    assert raw.entries[0] == KV(k, v);
    OverridesOnly(reg, rootName, Some(rootName), name, Dot(rootName, name), raw, [o]);
  }

  lemma OneChildOnly(reg: seq<Handler>, rootName: string, name: string, raw: Value, c: Section)
    requires raw.Map? && ResolveIndex(reg, name).None? && FamilyIndex(reg, name).None?
    requires BuildSection(reg, rootName, Some(rootName), name, Dot(rootName, name), raw) == Ok(c)
    ensures Build(rootName, Map([KV(name, raw)]), reg) == Ok(Section(rootName, rootName, None, rootName, Map([KV(name, raw)]), [c], []))
  {
    var doc := Map([KV(name, raw)]);
    assert Classify(reg, name, raw) == ChildKey;
    assert doc.entries[0] == KV(name, raw);
    OneChild(reg, rootName, rootName, rootName, KV(name, raw), c);
    ChildrenOnly(reg, rootName, None, rootName, rootName, doc, [c]);
  }

  /**
   * A document `{name: {k: v}}` builds a root whose one child section
   * `name` is its only leaf and holds the override `k` resolves to.
   */
  lemma OneOverrideTree(reg: seq<Handler>, rootName: string, name: string, k: string, v: Value, h: nat, o: Override)
    requires ResolveIndex(reg, k) == Some(h)
    requires ResolveIndex(reg, name).None? && FamilyIndex(reg, name).None?
    requires ResolveWith(reg[h], k, Dot(Dot(rootName, name), k), v) == Ok(o)
    ensures var leaf := OneOverrideLeaf(rootName, name, k, v, o);
      Build(rootName, Map([KV(name, Map([KV(k, v)]))]), reg) ==
        Ok(Section(rootName, rootName, None, rootName, Map([KV(name, Map([KV(k, v)]))]), [leaf], []))
    ensures LeafSections(Section(rootName, rootName, None, rootName, Map([KV(name, Map([KV(k, v)]))]), [OneOverrideLeaf(rootName, name, k, v, o)], [])) ==
      [OneOverrideLeaf(rootName, name, k, v, o)]
  {
    var leaf := OneOverrideLeaf(rootName, name, k, v, o);
    OneOverrideBuilds(reg, rootName, name, k, v, h, o);
    OneChildOnly(reg, rootName, name, Map([KV(k, v)]), leaf);
    var root := Section(rootName, rootName, None, rootName, Map([KV(name, Map([KV(k, v)]))]), [leaf], []);
    LeavesOfOne(root, leaf);
  }

  /** Two explicit overrides from keys `kv1`, `kv2`, in that order. */
  lemma TwoExplicit(reg: seq<Handler>, path: string, kv1: KV, kv2: KV, h1: nat, h2: nat, o1: Override, o2: Override)
    requires ResolveIndex(reg, kv1.key) == Some(h1) && ResolveIndex(reg, kv2.key) == Some(h2)
    requires ResolveWith(reg[h1], kv1.key, Dot(path, kv1.key), kv1.val) == Ok(o1)
    requires ResolveWith(reg[h2], kv2.key, Dot(path, kv2.key), kv2.val) == Ok(o2)
    ensures ExplicitOverrides(reg, path, [kv1, kv2], 0) == Ok([o1, o2])
  {
    var es := [kv1, kv2];
    assert ExplicitOverrides(reg, path, es, 2) == Ok([]);
    assert [o2] + [] == [o2];
    assert ExplicitOverrides(reg, path, es, 1) == Ok([o2]);
    assert [o1] + [o2] == [o1, o2];
  }

  lemma LooseAll(reg: seq<Handler>, f: nat, es: seq<KV>)
    requires forall k :: 0 <= k < |es| ==> Classify(reg, es[k].key, es[k].val) == MemberKey(f)
    ensures LooseEntries(reg, f, es) == es
  {
    FilterAll(es, MemberOf(reg, f));
  }

  /**
   * With one registered family, a mapping whose keys all belong to that
   * family's member types yields its one implicit override.
   */
  lemma OneFamilyImplicit(h: Handler, path: string, es: seq<KV>, o: Override)
    requires Family(h) && |es| > 0
    requires forall k :: 0 <= k < |es| ==> Classify([h], es[k].key, es[k].val) == MemberKey(0)
    requires ResolveMapped(h, PrimaryAlias(h), Dot(path, PrimaryAlias(h)), Map(es)) == Ok(o)
    ensures ImplicitOverrides([h], path, es, 0) == Ok([o])
  {
    LooseAll([h], 0, es);
    assert ImplicitOverrides([h], path, es, 1) == Ok([]);
    assert [o] + [] == [o];
  }

  /** A section whose keys all reach families through their member types. */
  lemma MembersOnly(reg: seq<Handler>, rootName: string, parent: Option<string>, name: string, path: string, raw: Value, os: seq<Override>)
    requires raw.Map?
    requires forall k :: 0 <= k < |raw.entries| ==> Classify(reg, raw.entries[k].key, raw.entries[k].val).MemberKey?
    requires ImplicitOverrides(reg, path, raw.entries, 0) == Ok(os)
    ensures BuildSection(reg, rootName, parent, name, path, raw) == Ok(Section(name, path, parent, rootName, raw, [], os))
  {
    ChildrenNone(reg, rootName, name, path, raw, 0);
    ExplicitNone(reg, path, raw.entries, 0);
    SectionOf(reg, rootName, parent, name, path, raw, [], [], os);
    assert [] + os == os;
  }

  // Leaves.

  lemma LeavesOfOne(s: Section, c: Section)
    requires s.children == [c] && !IsLeaf(s)
    ensures LeafSections(s) == LeafSections(c)
  {
    assert LeavesFrom(s, 1) == [];
    assert LeafSections(c) + [] == LeafSections(c);
  }

  lemma LeavesOfTwo(s: Section, c1: Section, c2: Section)
    requires s.children == [c1, c2] && !IsLeaf(s)
    ensures LeafSections(s) == LeafSections(c1) + LeafSections(c2)
  {
    assert LeavesFrom(s, 2) == [];
    assert LeafSections(c2) + [] == LeafSections(c2);
    assert LeavesFrom(s, 1) == LeafSections(c2);
  }

  /** A name no handler and no member type of `group` claims names a child section. */
  lemma ChildName(name: string, v: Value)
    requires v.Map? && name != "group" && ResolveIndex(Group.members, name).None?
    ensures Classify([Group], name, v) == ChildKey
  {
  }

  /** A document of one section under the `group` registry builds to a root holding just that section. */
  lemma GroupRootBuilds(rootName: string, name: string, raw: Value, c: Section)
    requires raw.Map? && name != "group" && ResolveIndex(Group.members, name).None?
    requires BuildSection([Group], rootName, Some(rootName), name, Dot(rootName, name), raw) == Ok(c)
    ensures Build(rootName, Map([KV(name, raw)]), [Group]) ==
      Ok(Section(rootName, rootName, None, rootName, Map([KV(name, raw)]), [c], []))
  {
    ChildName(name, raw);
    OneChildOnly([Group], rootName, name, raw, c);
  }

  /** A leaf holding only member keys of `group`: its one override is the implicit group. */
  lemma GroupLeaf(rootName: string, parent: string, name: string, path: string, raw: Value, g: Override)
    requires raw.Map? && |raw.entries| > 0
    requires forall k :: 0 <= k < |raw.entries| ==> Classify([Group], raw.entries[k].key, raw.entries[k].val) == MemberKey(0)
    requires ResolveMapped(Group, "group", Dot(path, "group"), raw) == Ok(g)
    ensures BuildSection([Group], rootName, Some(parent), name, path, raw) == Ok(Section(name, path, Some(parent), rootName, raw, [], [g]))
  {
    assert Map(raw.entries) == raw;
    OneFamilyImplicit(Group, path, raw.entries, g);
    MembersOnly([Group], rootName, Some(parent), name, path, raw, [g]);
  }
}
