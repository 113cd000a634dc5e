/**
 * When a tree builds: the shape of a document the builder accepts, key by
 * key, and the proof that the builder succeeds on exactly those documents.
 */
module SectionShapes {
  import opened Wrappers
  import opened Document
  import opened Registry
  import opened Paths
  import opened Overrides
  import opened Sections

  /**
   * One key of a section is accepted: a recognised key when its handler
   * accepts the value, a member key when the member type reaching it
   * accepts the value, a child key when its mapping is an accepted
   * section, and an ignored key always.
   */
  predicate KeyShaped(reg: seq<Handler>, key: string, val: Value)
    decreases val, 2
  {
    match Classify(reg, key, val)
    case OverrideKey(h) => Shaped(reg[h], val)
    case MemberKey(f) => EntryShaped(reg[f].members, key, val)
    case ChildKey => SectionShaped(reg, val)
    case Ignored => true
  }

  /** Content the builder accepts as a section: a mapping each of whose keys is accepted. */
  predicate SectionShaped(reg: seq<Handler>, raw: Value)
    decreases raw, 1
  {
    raw.Map? && forall k :: 0 <= k < |raw.entries| ==> KeyShaped(reg, raw.entries[k].key, raw.entries[k].val)
  }

  /** Every child key of `es` from position `i` on holds an accepted section. */
  predicate ChildrenShaped(reg: seq<Handler>, es: seq<KV>, i: nat)
  {
    forall k :: i <= k < |es| && Classify(reg, es[k].key, es[k].val).ChildKey? ==> SectionShaped(reg, es[k].val)
  }

  /** Every recognised key of `es` from position `i` on holds content its handler accepts. */
  predicate ExplicitShaped(reg: seq<Handler>, es: seq<KV>, i: nat)
  {
    forall k :: i <= k < |es| && Classify(reg, es[k].key, es[k].val).OverrideKey? ==>
      Shaped(reg[Classify(reg, es[k].key, es[k].val).handler], es[k].val)
  }

  /** Every member key of `es` holds content the member type reaching it accepts. */
  predicate MembersShaped(reg: seq<Handler>, es: seq<KV>)
  {
    forall k :: 0 <= k < |es| && Classify(reg, es[k].key, es[k].val).MemberKey? ==>
      EntryShaped(reg[Classify(reg, es[k].key, es[k].val).family].members, es[k].key, es[k].val)
  }

  /** The mapping of the member keys reaching family `g`, if any, is content the family accepts. */
  predicate FamilyShaped(reg: seq<Handler>, es: seq<KV>, g: nat)
  {
    g < |reg| && |LooseEntries(reg, g, es)| > 0 ==> ContentShaped(reg[g].members, Map(LooseEntries(reg, g, es)))
  }

  /** Every family from position `f` of the registry on accepts the member keys reaching it. */
  predicate FamiliesShaped(reg: seq<Handler>, es: seq<KV>, f: nat)
  {
    forall g :: f <= g < |reg| ==> FamilyShaped(reg, es, g)
  }

  /**
   * A tree builds exactly when the document is a mapping the builder
   * accepts; a document that is not a mapping fails as such, and any other
   * failure is malformed override content somewhere in it.
   */
  lemma BuildShaped(rootName: string, doc: Value, reg: seq<Handler>)
    ensures Build(rootName, doc, reg).Ok? <==> doc.Map? && SectionShaped(reg, doc)
  {
    if doc.Map? {
      BuildSectionShaped(reg, rootName, None, rootName, rootName, doc);
    }
  }

  /** A section builds exactly when its content is accepted: its children, its recognised keys and its member keys. */
  lemma BuildSectionShaped(reg: seq<Handler>, rootName: string, parent: Option<string>, name: string, path: string, raw: Value)
    requires raw.Map?
    decreases raw, 1, 0
    ensures BuildSection(reg, rootName, parent, name, path, raw).Ok? <==> SectionShaped(reg, raw)
  {
    BuildChildrenShaped(reg, rootName, name, path, raw, 0);
    ExplicitResolves(reg, path, raw.entries, 0);
    ImplicitResolves(reg, path, raw.entries, 0);
    MembersFamilies(reg, raw.entries);
    KeysSplit(reg, raw);
  }

  /** The children of the keys from position `i` on build exactly when each child key holds an accepted section. */
  lemma BuildChildrenShaped(reg: seq<Handler>, rootName: string, parentName: string, path: string, raw: Value, i: nat)
    requires raw.Map? && i <= |raw.entries|
    decreases raw, 0, |raw.entries| - i
    ensures BuildChildren(reg, rootName, parentName, path, raw, i).Ok? <==> ChildrenShaped(reg, raw.entries, i)
  {
    if i < |raw.entries| {
      var kv := raw.entries[i];
      assert kv in raw.entries;
      BuildChildrenShaped(reg, rootName, parentName, path, raw, i + 1);
      ChildrenShapedStep(reg, raw.entries, i);
      if Classify(reg, kv.key, kv.val).ChildKey? {
        BuildSectionShaped(reg, rootName, Some(parentName), kv.key, Dot(path, kv.key), kv.val);
        ChildBuilds(reg, rootName, parentName, path, raw, i);
      } else {
        SkipsChild(reg, rootName, parentName, path, raw, i);
      }
    }
  }

  lemma ChildrenShapedStep(reg: seq<Handler>, es: seq<KV>, i: nat)
    requires i < |es|
    ensures ChildrenShaped(reg, es, i) <==>
      (Classify(reg, es[i].key, es[i].val).ChildKey? ==> SectionShaped(reg, es[i].val)) &&
      ChildrenShaped(reg, es, i + 1)
  {
  }

  lemma ChildBuilds(reg: seq<Handler>, rootName: string, parentName: string, path: string, raw: Value, i: nat)
    requires raw.Map? && i < |raw.entries| && Classify(reg, raw.entries[i].key, raw.entries[i].val).ChildKey?
    ensures var kv := raw.entries[i];
      BuildChildren(reg, rootName, parentName, path, raw, i).Ok? <==>
        BuildSection(reg, rootName, Some(parentName), kv.key, Dot(path, kv.key), kv.val).Ok? &&
        BuildChildren(reg, rootName, parentName, path, raw, i + 1).Ok?
  {
  }

  /** The overrides of the recognised keys from position `i` on resolve exactly when their handlers accept their content. */
  lemma ExplicitResolves(reg: seq<Handler>, path: string, es: seq<KV>, i: nat)
    requires i <= |es|
    decreases |es| - i
    ensures ExplicitOverrides(reg, path, es, i).Ok? <==> ExplicitShaped(reg, es, i)
  {
    if i < |es| {
      ExplicitResolves(reg, path, es, i + 1);
      ExplicitShapedStep(reg, es, i);
      match Classify(reg, es[i].key, es[i].val)
      case OverrideKey(h) =>
        ResolveWithShaped(reg[h], es[i].key, Dot(path, es[i].key), es[i].val);
      case _ =>
        assert ExplicitOverrides(reg, path, es, i) == ExplicitOverrides(reg, path, es, i + 1);
    }
  }

  lemma ExplicitShapedStep(reg: seq<Handler>, es: seq<KV>, i: nat)
    requires i < |es|
    ensures ExplicitShaped(reg, es, i) <==>
      (Classify(reg, es[i].key, es[i].val).OverrideKey? ==> Shaped(reg[Classify(reg, es[i].key, es[i].val).handler], es[i].val)) &&
      ExplicitShaped(reg, es, i + 1)
  {
  }

  /** The implicit overrides of the families from position `f` on resolve exactly when each family accepts its member keys. */
  lemma ImplicitResolves(reg: seq<Handler>, path: string, es: seq<KV>, f: nat)
    requires f <= |reg|
    decreases |reg| - f
    ensures ImplicitOverrides(reg, path, es, f).Ok? <==> FamiliesShaped(reg, es, f)
  {
    if f < |reg| {
      ImplicitResolves(reg, path, es, f + 1);
      FamiliesShapedStep(reg, es, f);
      if |LooseEntries(reg, f, es)| == 0 {
        ImplicitSkip(reg, path, es, f);
      } else {
        ImplicitResolvesHead(reg, path, es, f);
      }
    }
  }

  lemma FamiliesShapedStep(reg: seq<Handler>, es: seq<KV>, f: nat)
    requires f < |reg|
    ensures FamiliesShaped(reg, es, f) <==> FamilyShaped(reg, es, f) && FamiliesShaped(reg, es, f + 1)
  {
  }

  lemma ImplicitResolvesHead(reg: seq<Handler>, path: string, es: seq<KV>, f: nat)
    requires f < |reg| && |LooseEntries(reg, f, es)| > 0
    ensures ImplicitOverrides(reg, path, es, f).Ok? <==>
      ContentShaped(reg[f].members, Map(LooseEntries(reg, f, es))) && ImplicitOverrides(reg, path, es, f + 1).Ok?
  {
    var loose := LooseEntries(reg, f, es);
    var alias := PrimaryAlias(reg[f]);
    var ro := ResolveMapped(reg[f], alias, Dot(path, alias), Map(loose));
    var rest := ImplicitOverrides(reg, path, es, f + 1);
    assert ImplicitOverrides(reg, path, es, f) == if ro.Err? then Err(ro.error) else if rest.Err? then Err(rest.error) else Ok([ro.value] + rest.value);
    ResolveMappedShaped(reg[f], alias, Dot(path, alias), Map(loose));
  }

  /** The member keys are accepted one by one exactly when every family accepts the mapping of those reaching it. */
  lemma MembersFamilies(reg: seq<Handler>, es: seq<KV>)
    ensures MembersShaped(reg, es) <==> FamiliesShaped(reg, es, 0)
  {
    if MembersShaped(reg, es) {
      forall g | 0 <= g < |reg|
        ensures FamilyShaped(reg, es, g)
      {
        LooseShaped(reg, es, g);
      }
    }
    if FamiliesShaped(reg, es, 0) {
      forall k | 0 <= k < |es| && Classify(reg, es[k].key, es[k].val).MemberKey?
        ensures EntryShaped(reg[Classify(reg, es[k].key, es[k].val).family].members, es[k].key, es[k].val)
      {
        MemberShaped(reg, es, k);
      }
    }
  }

  lemma LooseShaped(reg: seq<Handler>, es: seq<KV>, g: nat)
    requires MembersShaped(reg, es) && g < |reg|
    ensures FamilyShaped(reg, es, g)
  {
    var loose := LooseEntries(reg, g, es);
    forall j | 0 <= j < |loose|
      ensures EntryShaped(reg[g].members, loose[j].key, loose[j].val)
    {
      assert loose[j] in loose;
      LooseEntriesSound(reg, g, es, loose[j]);
      var k :| 0 <= k < |es| && es[k] == loose[j];
    }
  }

  lemma MemberShaped(reg: seq<Handler>, es: seq<KV>, k: nat)
    requires FamiliesShaped(reg, es, 0)
    requires k < |es| && Classify(reg, es[k].key, es[k].val).MemberKey?
    ensures EntryShaped(reg[Classify(reg, es[k].key, es[k].val).family].members, es[k].key, es[k].val)
  {
    var g := Classify(reg, es[k].key, es[k].val).family;
    LooseEntriesComplete(reg, g, es, k);
    var loose := LooseEntries(reg, g, es);
    assert FamilyShaped(reg, es, g);
    var j :| 0 <= j < |loose| && loose[j] == es[k];
  }

  /** A section's keys are accepted exactly when its child keys, its recognised keys and its member keys are. */
  lemma KeysSplit(reg: seq<Handler>, raw: Value)
    requires raw.Map?
    ensures SectionShaped(reg, raw) <==>
      ChildrenShaped(reg, raw.entries, 0) && ExplicitShaped(reg, raw.entries, 0) && MembersShaped(reg, raw.entries)
  {
  }
}
