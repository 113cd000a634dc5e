/**
 * Sections and the tree builder (StructRSection): the recursive descent over
 * an ordered mapping that turns reserved keys into overrides and the other
 * mapping-valued keys into child sections, the leaf traversal and the
 * dotted paths.
 */
module Sections {
  import opened Wrappers
  import opened Document
  import opened Registry
  import opened Paths
  import opened Overrides
  import opened Seqs
  import OverrideAccess

  /**
   * A built section: its name, dotted path (`resolve_path`), the name of its
   * parent (`parent`) and of the root (`root`), its raw content, its child
   * sections in document order and its resolved overrides.
   */
  datatype Section = Section(
    name: string,
    path: string,
    parent: Option<string>,
    rootName: string,
    raw: Value,
    children: seq<Section>,
    overrides: seq<Override>)

  /** How a key of a section is consumed: by exactly one of these. */
  datatype KeyKind = OverrideKey(handler: nat) | MemberKey(family: nat) | ChildKey | Ignored

  /**
   * A key some handler recognises yields the first such handler's override;
   * otherwise a key a member type of a registered mapped family recognises
   * yields the first such family's override; otherwise a key whose value is a
   * mapping names a child section; the remaining keys are ignored.
   */
  function Classify(reg: seq<Handler>, key: string, val: Value): (r: KeyKind)
    ensures r.OverrideKey? ==> r.handler < |reg| && key in reg[r.handler].aliases
    ensures r.MemberKey? ==> r.family < |reg| && Family(reg[r.family])
    ensures r.ChildKey? ==> val.Map? && ResolveIndex(reg, key).None?
    ensures ResolveIndex(reg, key).Some? <==> r.OverrideKey?
  {
    match ResolveIndex(reg, key)
    case Some(h) => OverrideKey(h)
    case None =>
      match FamilyIndex(reg, key)
      case Some(f) => MemberKey(f)
      case None => if val.Map? then ChildKey else Ignored
  }

  /**
   * Each kind of key, both ways: an override key of the first handler
   * recognising it; a member key of the first family reaching it when no
   * handler recognises it; a child key when neither does and its value is a
   * mapping; ignored when neither does and its value is anything else.
   */
  lemma ClassifyExact(reg: seq<Handler>, key: string, val: Value)
    ensures var r := Classify(reg, key, val);
      (r.OverrideKey? <==> ResolveIndex(reg, key).Some?) &&
      (r.OverrideKey? ==> r.handler == ResolveIndex(reg, key).value) &&
      (r.MemberKey? <==> ResolveIndex(reg, key).None? && FamilyIndex(reg, key).Some?) &&
      (r.MemberKey? ==> r.family == FamilyIndex(reg, key).value && Reaches(reg[r.family], key)) &&
      (r.ChildKey? <==> ResolveIndex(reg, key).None? && FamilyIndex(reg, key).None? && val.Map?) &&
      (r.Ignored? <==> ResolveIndex(reg, key).None? && FamilyIndex(reg, key).None? && !val.Map?)
  {
  }

  /** The keys of `es` from position `i` on that name child sections, in document order. */
  function ChildEntries(reg: seq<Handler>, es: seq<KV>, i: nat): (r: seq<KV>)
    requires i <= |es|
    decreases |es| - i
    ensures forall kv :: kv in r ==> kv in es && Classify(reg, kv.key, kv.val).ChildKey?
  {
    if i == |es| then []
    else (if Classify(reg, es[i].key, es[i].val).ChildKey? then [es[i]] else []) + ChildEntries(reg, es, i + 1)
  }

  /** The keys of `es` from position `i` on that handlers recognise, in document order. */
  function OverrideEntries(reg: seq<Handler>, es: seq<KV>, i: nat): (r: seq<KV>)
    requires i <= |es|
    decreases |es| - i
    ensures forall kv :: kv in r ==> kv in es && Classify(reg, kv.key, kv.val).OverrideKey?
  {
    if i == |es| then []
    else (if Classify(reg, es[i].key, es[i].val).OverrideKey? then [es[i]] else []) + OverrideEntries(reg, es, i + 1)
  }

  lemma {:induction false} ChildEntriesComplete(reg: seq<Handler>, es: seq<KV>, i: nat, j: nat)
    requires i <= j < |es| && Classify(reg, es[j].key, es[j].val).ChildKey?
    ensures es[j] in ChildEntries(reg, es, i)
    decreases j - i
  {
    var head := if Classify(reg, es[i].key, es[i].val).ChildKey? then [es[i]] else [];
    assert ChildEntries(reg, es, i) == head + ChildEntries(reg, es, i + 1);
    if i < j {
      ChildEntriesComplete(reg, es, i + 1, j);
    } else {
      assert head == [es[j]];
    }
  }

  lemma {:induction false} OverrideEntriesComplete(reg: seq<Handler>, es: seq<KV>, i: nat, j: nat)
    requires i <= j < |es| && Classify(reg, es[j].key, es[j].val).OverrideKey?
    ensures es[j] in OverrideEntries(reg, es, i)
    decreases j - i
  {
    var head := if Classify(reg, es[i].key, es[i].val).OverrideKey? then [es[i]] else [];
    assert OverrideEntries(reg, es, i) == head + OverrideEntries(reg, es, i + 1);
    if i < j {
      OverrideEntriesComplete(reg, es, i + 1, j);
    } else {
      assert head == [es[j]];
    }
  }

  /** Whether a key and its value reach family `f` through one of its member types. */
  function MemberOf(reg: seq<Handler>, f: nat): KV -> bool
  {
    (kv: KV) => Classify(reg, kv.key, kv.val) == MemberKey(f)
  }

  /** The keys of `es` that reach family `f` through its member types, in document order. */
  function LooseEntries(reg: seq<Handler>, f: nat, es: seq<KV>): (r: seq<KV>)
    ensures |r| > 0 ==> f < |reg| && Family(reg[f])
  {
    var r := Filter(es, MemberOf(reg, f));
    if |r| > 0 then
      FilterSound(es, MemberOf(reg, f), r[0]);
      r
    else r
  }

  lemma LooseEntriesSound(reg: seq<Handler>, f: nat, es: seq<KV>, kv: KV)
    requires kv in LooseEntries(reg, f, es)
    ensures kv in es && Classify(reg, kv.key, kv.val) == MemberKey(f)
  {
    FilterSound(es, MemberOf(reg, f), kv);
  }

  lemma LooseEntriesComplete(reg: seq<Handler>, f: nat, es: seq<KV>, j: nat)
    requires j < |es| && Classify(reg, es[j].key, es[j].val) == MemberKey(f)
    ensures es[j] in LooseEntries(reg, f, es)
  {
    FilterComplete(es, MemberOf(reg, f), j);
  }

  /** An override at section level: never a terminal, typed by a registered handler claiming its alias. */
  predicate OverrideOk(o: Override, reg: seq<Handler>, path: string)
  {
    !o.Terminal? && o.path == Dot(path, o.alias) && PathsOk(o) &&
    exists h :: 0 <= h < |reg| && o.alias in reg[h].aliases && Conforms(o, reg[h])
  }

  /**
   * Every key of a section's content is consumed as what `Classify` says:
   * a child section of that name, an override under that spelling, or a
   * member of the implicit override of its family.
   */
  predicate KeysConsumed(s: Section, reg: seq<Handler>)
    requires s.raw.Map?
  {
    (forall i :: 0 <= i < |s.raw.entries| && Classify(reg, s.raw.entries[i].key, s.raw.entries[i].val).ChildKey? ==>
      exists c :: c in s.children && c.name == s.raw.entries[i].key && c.raw == s.raw.entries[i].val) &&
    (forall i :: 0 <= i < |s.raw.entries| && Classify(reg, s.raw.entries[i].key, s.raw.entries[i].val).OverrideKey? ==>
      exists o :: o in s.overrides && !o.Terminal? && o.alias == s.raw.entries[i].key && o.raw == s.raw.entries[i].val) &&
    (forall i :: 0 <= i < |s.raw.entries| && Classify(reg, s.raw.entries[i].key, s.raw.entries[i].val).MemberKey? ==>
      FamilyYielded(s, reg, Classify(reg, s.raw.entries[i].key, s.raw.entries[i].val).family, s.raw.entries[i]))
  }

  /** `s` holds family `f`'s override under its first alias, with `kv` among its raw content. */
  predicate FamilyYielded(s: Section, reg: seq<Handler>, f: nat, kv: KV)
  {
    f < |reg| && |reg[f].aliases| > 0 &&
    exists o :: o in s.overrides && o.Mapped? && o.cls == reg[f].cls &&
      o.alias == PrimaryAlias(reg[f]) && o.raw.Map? && kv in o.raw.entries
  }

  /**
   * The invariant of a built tree: the children are exactly the sections of
   * the child keys, in document order, each named and filled by its key, at
   * the path plus its name, with this parent and the same root, and each
   * satisfying the invariant in turn; the overrides are exactly the explicit
   * ones of the recognised keys followed by the implicit ones of the families
   * reached through member keys.
   */
  predicate SectionOk(s: Section, reg: seq<Handler>)
    decreases s
  {
    s.raw.Map? &&
    ChildrenPlaced(s.children, reg, s.rootName, s.name, s.path, s.raw.entries, 0) &&
    (forall i :: 0 <= i < |s.children| ==> SectionOk(s.children[i], reg)) &&
    OverridesBuilt(s.overrides, reg, s.path, s.raw.entries)
  }

  /** `os` are the explicit overrides of the recognised keys of `es`, then the implicit ones of the families reached. */
  predicate OverridesBuilt(os: seq<Override>, reg: seq<Handler>, path: string, es: seq<KV>)
  {
    var n := |OverrideEntries(reg, es, 0)|;
    n <= |os| && ExplicitsBuilt(os[..n], reg, path, es, 0) && ImplicitsBuilt(os[n..], reg, path, es, 0)
  }

  /**
   * What the invariant says of a section's keys and overrides: every key is
   * consumed as its class says, and every override sits at the section's
   * path plus its alias, typed by a handler claiming that alias.
   */
  lemma SectionOkMeans(s: Section, reg: seq<Handler>)
    requires SectionOk(s, reg)
    ensures KeysConsumed(s, reg)
    ensures forall k :: 0 <= k < |s.overrides| ==> OverrideOk(s.overrides[k], reg, s.path)
  {
    var n := |OverrideEntries(reg, s.raw.entries, 0)|;
    var explicit, implicit := s.overrides[..n], s.overrides[n..];
    assert s.overrides == explicit + implicit;
    AllKeysConsumed(s, reg, explicit, implicit);
    ExplicitAreOk(explicit, reg, s.path, s.raw.entries);
    ImplicitAreOk(implicit, reg, s.path, s.raw.entries);
    OverridesOkAppend(explicit, implicit, reg, s.path);
  }

  lemma OverridesOkAppend(a: seq<Override>, b: seq<Override>, reg: seq<Handler>, path: string)
    requires forall k :: 0 <= k < |a| ==> OverrideOk(a[k], reg, path)
    requires forall k :: 0 <= k < |b| ==> OverrideOk(b[k], reg, path)
    ensures forall k :: 0 <= k < |a + b| ==> OverrideOk((a + b)[k], reg, path)
  {
    forall k | 0 <= k < |a + b| ensures OverrideOk((a + b)[k], reg, path) {
      if k < |a| {
        assert (a + b)[k] == a[k];
      } else {
        assert (a + b)[k] == b[k - |a|];
      }
    }
  }

  /**
   * Builds the section `name` at `path` over the mapping `raw`: child
   * sections first, then overrides for the recognised keys in document order,
   * then one implicit override per family that some member keys reach.
   */
  function BuildSection(reg: seq<Handler>, rootName: string, parent: Option<string>, name: string, path: string, raw: Value): (r: Result<Section, BuildError>)
    requires raw.Map?
    decreases raw, 1, 0
  {
    var kids :- BuildChildren(reg, rootName, name, path, raw, 0);
    var explicit :- ExplicitOverrides(reg, path, raw.entries, 0);
    var implicit :- ImplicitOverrides(reg, path, raw.entries, 0);
    Ok(Section(name, path, parent, rootName, raw, kids, explicit + implicit))
  }

  /**
   * A built section has the name, path, parent, root name and content it was
   * built for, and satisfies the tree invariant.
   */
  lemma {:induction false} BuildSectionOk(reg: seq<Handler>, rootName: string, parent: Option<string>, name: string, path: string, raw: Value)
    requires raw.Map?
    decreases raw, 1, 0
    ensures var r := BuildSection(reg, rootName, parent, name, path, raw);
      r.Ok? ==> r.value.name == name && r.value.path == path && r.value.parent == parent &&
                r.value.rootName == rootName && r.value.raw == raw && SectionOk(r.value, reg)
  {
    var r := BuildSection(reg, rootName, parent, name, path, raw);
    if r.Ok? {
      var kids := BuildChildren(reg, rootName, name, path, raw, 0).value;
      var explicit := ExplicitOverrides(reg, path, raw.entries, 0).value;
      var implicit := ImplicitOverrides(reg, path, raw.entries, 0).value;
      BuildChildrenOk(reg, rootName, name, path, raw, 0);
      ExplicitOverridesOk(reg, path, raw.entries, 0);
      ImplicitOverridesOk(reg, path, raw.entries, 0);
      var s := Section(name, path, parent, rootName, raw, kids, explicit + implicit);
      assert r.value == s;
      assert s.overrides[..|explicit|] == explicit && s.overrides[|explicit|..] == implicit;
      assert forall k :: 0 <= k < |kids| ==> ChildBuilt(kids[k], ChildEntries(reg, raw.entries, 0)[k], reg, rootName, name, path);
    }
  }

  /** Child `c` is placed for key `kv` of the section at `path`: named and filled by the key, under this parent and root. */
  predicate ChildPlaced(c: Section, kv: KV, rootName: string, parentName: string, path: string)
  {
    c.name == kv.key && c.raw == kv.val && c.path == Dot(path, c.name) &&
    c.parent == Some(parentName) && c.rootName == rootName
  }

  /** `kids` are placed, in order, for the child keys of `es` from position `i` on. */
  predicate ChildrenPlaced(kids: seq<Section>, reg: seq<Handler>, rootName: string, parentName: string, path: string, es: seq<KV>, i: nat)
    requires i <= |es|
  {
    |kids| == |ChildEntries(reg, es, i)| &&
    forall k :: 0 <= k < |kids| ==> ChildPlaced(kids[k], ChildEntries(reg, es, i)[k], rootName, parentName, path)
  }

  /** Child `c` is the section built for key `kv` of the section at `path`. */
  predicate ChildBuilt(c: Section, kv: KV, reg: seq<Handler>, rootName: string, parentName: string, path: string)
  {
    ChildPlaced(c, kv, rootName, parentName, path) && SectionOk(c, reg)
  }

  /** `kids` are the sections built, in order, for the child keys of `es` from position `i` on. */
  predicate ChildrenBuilt(kids: seq<Section>, reg: seq<Handler>, rootName: string, parentName: string, path: string, es: seq<KV>, i: nat)
    requires i <= |es|
  {
    |kids| == |ChildEntries(reg, es, i)| &&
    forall k :: 0 <= k < |kids| ==> ChildBuilt(kids[k], ChildEntries(reg, es, i)[k], reg, rootName, parentName, path)
  }

  /** The child sections of the keys from position `i` on. */
  function BuildChildren(reg: seq<Handler>, rootName: string, parentName: string, path: string, raw: Value, i: nat): (r: Result<seq<Section>, BuildError>)
    requires raw.Map? && i <= |raw.entries|
    decreases raw, 0, |raw.entries| - i
  {
    if i == |raw.entries| then Ok([])
    else
      var kv := raw.entries[i];
      assert kv in raw.entries;
      if Classify(reg, kv.key, kv.val).ChildKey? then
        var c :- BuildSection(reg, rootName, Some(parentName), kv.key, Dot(path, kv.key), kv.val);
        var rest :- BuildChildren(reg, rootName, parentName, path, raw, i + 1);
        Ok([c] + rest)
      else
        BuildChildren(reg, rootName, parentName, path, raw, i + 1)
  }

  /** The children of the keys from position `i` on, when they build, are the sections built for the child keys. */
  predicate ChildrenFrom(reg: seq<Handler>, rootName: string, parentName: string, path: string, raw: Value, i: nat)
    requires raw.Map? && i <= |raw.entries|
  {
    var r := BuildChildren(reg, rootName, parentName, path, raw, i);
    r.Ok? ==> ChildrenBuilt(r.value, reg, rootName, parentName, path, raw.entries, i)
  }

  /** One child per child key from position `i` on, in document order, each built for its key. */
  lemma {:induction false} BuildChildrenOk(reg: seq<Handler>, rootName: string, parentName: string, path: string, raw: Value, i: nat)
    requires raw.Map? && i <= |raw.entries|
    decreases raw, 0, |raw.entries| - i
    ensures ChildrenFrom(reg, rootName, parentName, path, raw, i)
  {
    if i < |raw.entries| {
      var kv := raw.entries[i];
      assert kv in raw.entries;
      BuildChildrenOk(reg, rootName, parentName, path, raw, i + 1);
      if Classify(reg, kv.key, kv.val).ChildKey? {
        BuildSectionOk(reg, rootName, Some(parentName), kv.key, Dot(path, kv.key), kv.val);
        ChildStep(reg, rootName, parentName, path, raw, i);
      } else {
        ChildSkip(reg, rootName, parentName, path, raw, i);
      }
    }
  }

  lemma ChildSkip(reg: seq<Handler>, rootName: string, parentName: string, path: string, raw: Value, i: nat)
    requires raw.Map? && i < |raw.entries| && !Classify(reg, raw.entries[i].key, raw.entries[i].val).ChildKey?
    requires ChildrenFrom(reg, rootName, parentName, path, raw, i + 1)
    ensures ChildrenFrom(reg, rootName, parentName, path, raw, i)
  {
    SkipsChild(reg, rootName, parentName, path, raw, i);
    SkipsChildEntry(reg, raw.entries, i);
  }

  lemma SkipsChild(reg: seq<Handler>, rootName: string, parentName: string, path: string, raw: Value, i: nat)
    requires raw.Map? && i < |raw.entries| && !Classify(reg, raw.entries[i].key, raw.entries[i].val).ChildKey?
    ensures BuildChildren(reg, rootName, parentName, path, raw, i) == BuildChildren(reg, rootName, parentName, path, raw, i + 1)
  {
  }

  lemma SkipsChildEntry(reg: seq<Handler>, es: seq<KV>, i: nat)
    requires i < |es| && !Classify(reg, es[i].key, es[i].val).ChildKey?
    ensures ChildEntries(reg, es, i) == ChildEntries(reg, es, i + 1)
  {
    assert ChildEntries(reg, es, i) == [] + ChildEntries(reg, es, i + 1);
  }

  lemma ChildStep(reg: seq<Handler>, rootName: string, parentName: string, path: string, raw: Value, i: nat)
    requires raw.Map? && i < |raw.entries|
    requires Classify(reg, raw.entries[i].key, raw.entries[i].val).ChildKey? && raw.entries[i].val.Map?
    requires var kv := raw.entries[i];
      var c := BuildSection(reg, rootName, Some(parentName), kv.key, Dot(path, kv.key), kv.val);
      c.Ok? ==> ChildPlaced(c.value, kv, rootName, parentName, path) && SectionOk(c.value, reg)
    requires ChildrenFrom(reg, rootName, parentName, path, raw, i + 1)
    ensures ChildrenFrom(reg, rootName, parentName, path, raw, i)
  {
    var kv := raw.entries[i];
    assert kv in raw.entries;
    var c := BuildSection(reg, rootName, Some(parentName), kv.key, Dot(path, kv.key), kv.val);
    var rest := BuildChildren(reg, rootName, parentName, path, raw, i + 1);
    if c.Ok? && rest.Ok? {
      assert BuildChildren(reg, rootName, parentName, path, raw, i) == Ok([c.value] + rest.value);
      ChildrenCons(c.value, rest.value, reg, rootName, parentName, path, raw.entries, i);
    }
  }

  lemma ChildrenCons(c: Section, rest: seq<Section>, reg: seq<Handler>, rootName: string, parentName: string, path: string, es: seq<KV>, i: nat)
    requires i < |es| && Classify(reg, es[i].key, es[i].val).ChildKey?
    requires ChildBuilt(c, es[i], reg, rootName, parentName, path)
    requires ChildrenBuilt(rest, reg, rootName, parentName, path, es, i + 1)
    ensures ChildrenBuilt([c] + rest, reg, rootName, parentName, path, es, i)
  {
    var ce := ChildEntries(reg, es, i + 1);
    assert ChildEntries(reg, es, i) == [es[i]] + ce;
    PlacedShift(c, rest, es[i], ce, rootName, parentName, path);
    OkShift(c, rest, reg);
  }

  lemma PlacedShift(c: Section, rest: seq<Section>, kv: KV, kvs: seq<KV>, rootName: string, parentName: string, path: string)
    requires ChildPlaced(c, kv, rootName, parentName, path) && |rest| == |kvs|
    requires forall k :: 0 <= k < |rest| ==> ChildPlaced(rest[k], kvs[k], rootName, parentName, path)
    ensures forall k :: 0 <= k < |[c] + rest| ==> ChildPlaced(([c] + rest)[k], ([kv] + kvs)[k], rootName, parentName, path)
  {
    PairsCons(c, rest, kv, kvs, (x, y) => ChildPlaced(x, y, rootName, parentName, path));
  }

  lemma OkShift(c: Section, rest: seq<Section>, reg: seq<Handler>)
    requires SectionOk(c, reg) && forall k :: 0 <= k < |rest| ==> SectionOk(rest[k], reg)
    ensures forall k :: 0 <= k < |[c] + rest| ==> SectionOk(([c] + rest)[k], reg)
  {
    AllCons(c, rest, x => SectionOk(x, reg));
  }

  /** Override `o` is the one the handler recognising `kv.key` yields at `path`. */
  predicate ExplicitBuilt(o: Override, kv: KV, reg: seq<Handler>, path: string)
  {
    ResolveIndex(reg, kv.key).Some? &&
    Resolved(o, reg[ResolveIndex(reg, kv.key).value], kv.key, Dot(path, kv.key), kv.val)
  }

  /** `os` are the overrides yielded, in order, for the recognised keys of `es` from position `i` on. */
  predicate ExplicitsBuilt(os: seq<Override>, reg: seq<Handler>, path: string, es: seq<KV>, i: nat)
    requires i <= |es|
  {
    |os| == |OverrideEntries(reg, es, i)| &&
    forall k :: 0 <= k < |os| ==> ExplicitBuilt(os[k], OverrideEntries(reg, es, i)[k], reg, path)
  }

  /** The overrides of the recognised keys from position `i` on, in document order. */
  function ExplicitOverrides(reg: seq<Handler>, path: string, es: seq<KV>, i: nat): (r: Result<seq<Override>, BuildError>)
    requires i <= |es|
    decreases |es| - i
  {
    if i == |es| then Ok([])
    else
      match Classify(reg, es[i].key, es[i].val)
      case OverrideKey(h) =>
        var o :- ResolveWith(reg[h], es[i].key, Dot(path, es[i].key), es[i].val);
        var rest :- ExplicitOverrides(reg, path, es, i + 1);
        Ok([o] + rest)
      case _ =>
        ExplicitOverrides(reg, path, es, i + 1)
  }

  /** The overrides of the recognised keys of `es` from position `i` on, when they build, are the ones their handlers yield. */
  predicate ExplicitsFrom(reg: seq<Handler>, path: string, es: seq<KV>, i: nat)
    requires i <= |es|
  {
    var r := ExplicitOverrides(reg, path, es, i);
    r.Ok? ==> ExplicitsBuilt(r.value, reg, path, es, i)
  }

  /** One override per recognised key from position `i` on, in document order, each what its handler yields. */
  lemma {:induction false} ExplicitOverridesOk(reg: seq<Handler>, path: string, es: seq<KV>, i: nat)
    requires i <= |es|
    decreases |es| - i
    ensures ExplicitsFrom(reg, path, es, i)
  {
    if i < |es| {
      ExplicitOverridesOk(reg, path, es, i + 1);
      ExplicitStep(reg, path, es, i);
    }
  }

  lemma ExplicitStep(reg: seq<Handler>, path: string, es: seq<KV>, i: nat)
    requires i < |es| && ExplicitsFrom(reg, path, es, i + 1)
    ensures ExplicitsFrom(reg, path, es, i)
  {
    if Classify(reg, es[i].key, es[i].val).OverrideKey? {
      ExplicitHead(reg, path, es, i);
    } else {
      ExplicitSkip(reg, path, es, i);
    }
  }

  lemma ExplicitSkip(reg: seq<Handler>, path: string, es: seq<KV>, i: nat)
    requires i < |es| && !Classify(reg, es[i].key, es[i].val).OverrideKey?
    requires ExplicitsFrom(reg, path, es, i + 1)
    ensures ExplicitsFrom(reg, path, es, i)
  {
    SkipsExplicit(reg, path, es, i);
    SkipsOverrideEntry(reg, es, i);
  }

  lemma SkipsExplicit(reg: seq<Handler>, path: string, es: seq<KV>, i: nat)
    requires i < |es| && !Classify(reg, es[i].key, es[i].val).OverrideKey?
    ensures ExplicitOverrides(reg, path, es, i) == ExplicitOverrides(reg, path, es, i + 1)
  {
  }

  lemma SkipsOverrideEntry(reg: seq<Handler>, es: seq<KV>, i: nat)
    requires i < |es| && !Classify(reg, es[i].key, es[i].val).OverrideKey?
    ensures OverrideEntries(reg, es, i) == OverrideEntries(reg, es, i + 1)
  {
    assert OverrideEntries(reg, es, i) == [] + OverrideEntries(reg, es, i + 1);
  }

  lemma ExplicitHead(reg: seq<Handler>, path: string, es: seq<KV>, i: nat)
    requires i < |es| && Classify(reg, es[i].key, es[i].val).OverrideKey?
    requires ExplicitsFrom(reg, path, es, i + 1)
    ensures ExplicitsFrom(reg, path, es, i)
  {
    var h := ResolveIndex(reg, es[i].key).value;
    var ro := ResolveWith(reg[h], es[i].key, Dot(path, es[i].key), es[i].val);
    var rest := ExplicitOverrides(reg, path, es, i + 1);
    assert ExplicitOverrides(reg, path, es, i) == if ro.Err? then Err(ro.error) else if rest.Err? then Err(rest.error) else Ok([ro.value] + rest.value);
    if ro.Ok? && rest.Ok? {
      ResolveWithOk(reg[h], es[i].key, Dot(path, es[i].key), es[i].val);
      ExplicitCons(ro.value, rest.value, reg, path, es, i);
    }
  }

  lemma ExplicitCons(o: Override, rest: seq<Override>, reg: seq<Handler>, path: string, es: seq<KV>, i: nat)
    requires i < |es| && Classify(reg, es[i].key, es[i].val).OverrideKey?
    requires ExplicitBuilt(o, es[i], reg, path)
    requires ExplicitsBuilt(rest, reg, path, es, i + 1)
    ensures ExplicitsBuilt([o] + rest, reg, path, es, i)
  {
    var oe := OverrideEntries(reg, es, i + 1);
    assert OverrideEntries(reg, es, i) == [es[i]] + oe;
    ExplicitShift(o, rest, es[i], oe, reg, path);
  }

  lemma ExplicitShift(o: Override, rest: seq<Override>, kv: KV, kvs: seq<KV>, reg: seq<Handler>, path: string)
    requires ExplicitBuilt(o, kv, reg, path) && |rest| == |kvs|
    requires forall k :: 0 <= k < |rest| ==> ExplicitBuilt(rest[k], kvs[k], reg, path)
    ensures forall k :: 0 <= k < |[o] + rest| ==> ExplicitBuilt(([o] + rest)[k], ([kv] + kvs)[k], reg, path)
  {
    PairsCons(o, rest, kv, kvs, (x, y) => ExplicitBuilt(x, y, reg, path));
  }

  /** Whether some member key of `es` reaches family `f`. */
  function Reached(reg: seq<Handler>, es: seq<KV>): nat -> bool
  {
    (f: nat) => |LooseEntries(reg, f, es)| > 0
  }

  /** The positions from `f` up to `n` that satisfy `p`, in increasing order. */
  function Listed(p: nat -> bool, f: nat, n: nat): (r: seq<nat>)
    requires f <= n
    decreases n - f
  {
    if f == n then []
    else (if p(f) then [f] else []) + Listed(p, f + 1, n)
  }

  /** A position is listed if and only if it lies in the range and satisfies `p`. */
  lemma {:induction false} ListedExact(p: nat -> bool, f: nat, n: nat, g: nat)
    requires f <= n
    decreases n - f
    ensures g in Listed(p, f, n) <==> f <= g < n && p(g)
  {
    if f < n {
      ListedExact(p, f + 1, n, g);
      FamilyCons(p(f), f, Listed(p, f + 1, n), g);
    }
  }

  lemma ListedSkip(p: nat -> bool, f: nat, n: nat)
    requires f < n && !p(f)
    ensures Listed(p, f, n) == Listed(p, f + 1, n)
  {
    assert Listed(p, f, n) == [] + Listed(p, f + 1, n);
  }

  lemma ListedTake(p: nat -> bool, f: nat, n: nat)
    requires f < n && p(f)
    ensures Listed(p, f, n) == [f] + Listed(p, f + 1, n)
  {
  }

  /** Family `g` is listed after optionally prepending `f` iff it is `f` and was prepended, or it was listed already. */
  lemma FamilyCons(b: bool, f: nat, rest: seq<nat>, g: nat)
    ensures g in (if b then [f] else []) + rest <==> (b && g == f) || g in rest
  {
    if b {
      assert ([f] + rest)[0] == f;
    }
  }

  /** The registered families, from position `f` on, that some member key of `es` reaches. */
  function ImplicitFamilies(reg: seq<Handler>, es: seq<KV>, f: nat): (r: seq<nat>)
    requires f <= |reg|
  {
    Listed(Reached(reg, es), f, |reg|)
  }

  /** The families listed are exactly those from position `f` on that some key reaches through a member type. */
  lemma ImplicitFamiliesExact(reg: seq<Handler>, es: seq<KV>, f: nat, g: nat)
    requires f <= |reg|
    ensures g in ImplicitFamilies(reg, es, f) <==> f <= g < |reg| && |LooseEntries(reg, g, es)| > 0
  {
    ListedExact(Reached(reg, es), f, |reg|, g);
  }

  /** Override `o` is family `g`'s implicit override for the keys of `es` that reach it. */
  predicate ImplicitBuilt(o: Override, reg: seq<Handler>, g: nat, es: seq<KV>, path: string)
  {
    g < |reg| && |reg[g].aliases| > 0 &&
    Resolved(o, reg[g], PrimaryAlias(reg[g]), Dot(path, PrimaryAlias(reg[g])), Map(LooseEntries(reg, g, es)))
  }

  /** `os` are the implicit overrides, in registry order, of the families from position `f` on that keys of `es` reach. */
  predicate ImplicitsBuilt(os: seq<Override>, reg: seq<Handler>, path: string, es: seq<KV>, f: nat)
    requires f <= |reg|
  {
    |os| == |ImplicitFamilies(reg, es, f)| &&
    forall k :: 0 <= k < |os| ==> ImplicitBuilt(os[k], reg, ImplicitFamilies(reg, es, f)[k], es, path)
  }

  /**
   * One override per registered family, from position `f` of the registry
   * on, that some member keys reach: its alias is the
   * family's first alias and its raw content the mapping of those keys.
   */
  function ImplicitOverrides(reg: seq<Handler>, path: string, es: seq<KV>, f: nat): (r: Result<seq<Override>, BuildError>)
    requires f <= |reg|
    decreases |reg| - f
  {
    if f == |reg| then Ok([])
    else
      var loose := LooseEntries(reg, f, es);
      if |loose| == 0 then
        ImplicitOverrides(reg, path, es, f + 1)
      else
        var alias := PrimaryAlias(reg[f]);
        var o :- ResolveMapped(reg[f], alias, Dot(path, alias), Map(loose));
        var rest :- ImplicitOverrides(reg, path, es, f + 1);
        Ok([o] + rest)
  }

  /**
   * One override per family, from position `f` of the registry on, that
   * member keys reach, in registry order: each under the
   * family's first alias, holding exactly those keys.
   */
  lemma {:induction false} ImplicitOverridesOk(reg: seq<Handler>, path: string, es: seq<KV>, f: nat)
    requires f <= |reg|
    decreases |reg| - f
    ensures ImplicitsFrom(reg, path, es, f)
  {
    if f < |reg| {
      ImplicitOverridesOk(reg, path, es, f + 1);
      ImplicitStep(reg, path, es, f);
      assert ImplicitsFrom(reg, path, es, f);
    } else {
      ImplicitBase(reg, path, es);
      assert ImplicitsFrom(reg, path, es, f);
    }
  }

  lemma ImplicitBase(reg: seq<Handler>, path: string, es: seq<KV>)
    ensures ImplicitsFrom(reg, path, es, |reg|)
  {
    assert ImplicitOverrides(reg, path, es, |reg|) == Ok([]);
    assert ImplicitFamilies(reg, es, |reg|) == [];
  }

  lemma ImplicitStep(reg: seq<Handler>, path: string, es: seq<KV>, f: nat)
    requires f < |reg| && ImplicitsFrom(reg, path, es, f + 1)
    ensures ImplicitsFrom(reg, path, es, f)
  {
    if |LooseEntries(reg, f, es)| == 0 {
      ImplicitSkipStep(reg, path, es, f);
    } else {
      ImplicitHead(reg, path, es, f);
    }
  }

  /** Whatever succeeds from family `f` on holds that range's implicit overrides. */
  predicate ImplicitsFrom(reg: seq<Handler>, path: string, es: seq<KV>, f: nat)
    requires f <= |reg|
  {
    var r := ImplicitOverrides(reg, path, es, f);
    r.Ok? ==> ImplicitsBuilt(r.value, reg, path, es, f)
  }

  lemma ImplicitSkipStep(reg: seq<Handler>, path: string, es: seq<KV>, f: nat)
    requires f < |reg| && |LooseEntries(reg, f, es)| == 0
    requires ImplicitsFrom(reg, path, es, f + 1)
    ensures ImplicitsFrom(reg, path, es, f)
  {
    ImplicitSkip(reg, path, es, f);
  }

  lemma ImplicitSkip(reg: seq<Handler>, path: string, es: seq<KV>, f: nat)
    requires f < |reg| && |LooseEntries(reg, f, es)| == 0
    ensures ImplicitOverrides(reg, path, es, f) == ImplicitOverrides(reg, path, es, f + 1)
    ensures ImplicitFamilies(reg, es, f) == ImplicitFamilies(reg, es, f + 1)
  {
    ListedSkip(Reached(reg, es), f, |reg|);
  }

  lemma ImplicitHead(reg: seq<Handler>, path: string, es: seq<KV>, f: nat)
    requires f < |reg| && |LooseEntries(reg, f, es)| > 0
    requires ImplicitsFrom(reg, path, es, f + 1)
    ensures ImplicitsFrom(reg, path, es, f)
  {
    var loose := LooseEntries(reg, f, es);
    var alias := PrimaryAlias(reg[f]);
    var ro := ResolveMapped(reg[f], alias, Dot(path, alias), Map(loose));
    var rest := ImplicitOverrides(reg, path, es, f + 1);
    assert ImplicitOverrides(reg, path, es, f) == if ro.Err? then Err(ro.error) else if rest.Err? then Err(rest.error) else Ok([ro.value] + rest.value);
    if ro.Ok? && rest.Ok? {
      ResolveMappedOk(reg[f], alias, Dot(path, alias), Map(loose));
      ImplicitCons(ro.value, rest.value, reg, path, es, f);
    }
  }

  lemma ImplicitCons(o: Override, rest: seq<Override>, reg: seq<Handler>, path: string, es: seq<KV>, f: nat)
    requires f < |reg| && |LooseEntries(reg, f, es)| > 0
    requires ImplicitBuilt(o, reg, f, es, path)
    requires ImplicitsBuilt(rest, reg, path, es, f + 1)
    ensures ImplicitsBuilt([o] + rest, reg, path, es, f)
  {
    var fs := ImplicitFamilies(reg, es, f + 1);
    ListedTake(Reached(reg, es), f, |reg|);
    ImplicitShift(o, rest, f, fs, reg, es, path);
  }

  lemma ImplicitShift(o: Override, rest: seq<Override>, g: nat, gs: seq<nat>, reg: seq<Handler>, es: seq<KV>, path: string)
    requires ImplicitBuilt(o, reg, g, es, path) && |rest| == |gs|
    requires forall k :: 0 <= k < |rest| ==> ImplicitBuilt(rest[k], reg, gs[k], es, path)
    ensures forall k :: 0 <= k < |[o] + rest| ==> ImplicitBuilt(([o] + rest)[k], reg, ([g] + gs)[k], es, path)
  {
    PairsCons(o, rest, g, gs, (x, y) => ImplicitBuilt(x, reg, y, es, path));
  }

  lemma ExplicitAreOk(os: seq<Override>, reg: seq<Handler>, path: string, es: seq<KV>)
    requires ExplicitsBuilt(os, reg, path, es, 0)
    ensures forall k :: 0 <= k < |os| ==> OverrideOk(os[k], reg, path)
  {
    forall k | 0 <= k < |os| ensures OverrideOk(os[k], reg, path) {
      var kv := OverrideEntries(reg, es, 0)[k];
      assert ExplicitBuilt(os[k], kv, reg, path);
      var h := ResolveIndex(reg, kv.key).value;
      ResolvedTyped(os[k], reg[h], kv.key, Dot(path, kv.key), kv.val);
      assert os[k].alias in reg[h].aliases && Conforms(os[k], reg[h]);
    }
  }

  lemma AllKeysConsumed(s: Section, reg: seq<Handler>, explicit: seq<Override>, implicit: seq<Override>)
    requires s.raw.Map? && s.overrides == explicit + implicit
    requires ChildrenPlaced(s.children, reg, s.rootName, s.name, s.path, s.raw.entries, 0)
    requires ExplicitsBuilt(explicit, reg, s.path, s.raw.entries, 0)
    requires ImplicitsBuilt(implicit, reg, s.path, s.raw.entries, 0)
    ensures KeysConsumed(s, reg)
  {
    var es := s.raw.entries;
    var ce := ChildEntries(reg, es, 0);
    forall i | 0 <= i < |es| && Classify(reg, es[i].key, es[i].val).ChildKey?
      ensures exists c :: c in s.children && c.name == es[i].key && c.raw == es[i].val
    {
      ChildConsumed(s.children, ce, reg, s.rootName, s.name, s.path, es, i);
    }
    var oe := OverrideEntries(reg, es, 0);
    forall i | 0 <= i < |es| && Classify(reg, es[i].key, es[i].val).OverrideKey?
      ensures exists o :: o in s.overrides && !o.Terminal? && o.alias == es[i].key && o.raw == es[i].val
    {
      OverrideConsumed(explicit, oe, reg, s.path, es, i);
      var o :| o in explicit && !o.Terminal? && o.alias == es[i].key && o.raw == es[i].val;
      assert o in s.overrides;
    }
    var fams := ImplicitFamilies(reg, es, 0);
    forall i | 0 <= i < |es| && Classify(reg, es[i].key, es[i].val).MemberKey?
      ensures FamilyYielded(s, reg, Classify(reg, es[i].key, es[i].val).family, es[i])
    {
      var f := Classify(reg, es[i].key, es[i].val).family;
      MemberConsumed(implicit, fams, reg, s.path, es, i);
      var o :| o in implicit && o.Mapped? && o.cls == reg[f].cls &&
        o.alias == PrimaryAlias(reg[f]) && o.raw.Map? && es[i] in o.raw.entries;
      assert o in s.overrides;
    }
  }

  lemma ChildConsumed(kids: seq<Section>, ce: seq<KV>, reg: seq<Handler>, rootName: string, name: string, path: string, es: seq<KV>, i: nat)
    requires ce == ChildEntries(reg, es, 0) && |kids| == |ce|
    requires forall k :: 0 <= k < |kids| ==> ChildPlaced(kids[k], ce[k], rootName, name, path)
    requires i < |es| && Classify(reg, es[i].key, es[i].val).ChildKey?
    ensures exists c :: c in kids && c.name == es[i].key && c.raw == es[i].val
  {
    ChildEntriesComplete(reg, es, 0, i);
    var k :| 0 <= k < |ce| && ce[k] == es[i];
    assert ChildPlaced(kids[k], ce[k], rootName, name, path);
    assert kids[k] in kids;
  }

  lemma OverrideConsumed(explicit: seq<Override>, oe: seq<KV>, reg: seq<Handler>, path: string, es: seq<KV>, i: nat)
    requires oe == OverrideEntries(reg, es, 0) && |explicit| == |oe|
    requires forall k :: 0 <= k < |explicit| ==> ExplicitBuilt(explicit[k], oe[k], reg, path)
    requires i < |es| && Classify(reg, es[i].key, es[i].val).OverrideKey?
    ensures exists o :: o in explicit && !o.Terminal? && o.alias == es[i].key && o.raw == es[i].val
  {
    OverrideEntriesComplete(reg, es, 0, i);
    var k :| 0 <= k < |oe| && oe[k] == es[i];
    assert ExplicitBuilt(explicit[k], oe[k], reg, path);
    assert explicit[k] in explicit;
  }

  lemma MemberConsumed(implicit: seq<Override>, fams: seq<nat>, reg: seq<Handler>, path: string, es: seq<KV>, i: nat)
    requires fams == ImplicitFamilies(reg, es, 0) && |implicit| == |fams|
    requires forall k :: 0 <= k < |implicit| ==> ImplicitBuilt(implicit[k], reg, fams[k], es, path)
    requires i < |es| && Classify(reg, es[i].key, es[i].val).MemberKey?
    ensures var f := Classify(reg, es[i].key, es[i].val).family;
      exists o :: o in implicit && o.Mapped? && o.cls == reg[f].cls &&
        o.alias == PrimaryAlias(reg[f]) && o.raw.Map? && es[i] in o.raw.entries
  {
    var f := Classify(reg, es[i].key, es[i].val).family;
    LooseEntriesComplete(reg, f, es, i);
    ImplicitFamiliesExact(reg, es, 0, f);
    var k :| 0 <= k < |fams| && fams[k] == f;
    assert ImplicitBuilt(implicit[k], reg, f, es, path);
    assert implicit[k] in implicit;
  }

  lemma ImplicitAreOk(os: seq<Override>, reg: seq<Handler>, path: string, es: seq<KV>)
    requires ImplicitsBuilt(os, reg, path, es, 0)
    ensures forall k :: 0 <= k < |os| ==> OverrideOk(os[k], reg, path)
  {
    forall k | 0 <= k < |os| ensures OverrideOk(os[k], reg, path) {
      var g := ImplicitFamilies(reg, es, 0)[k];
      assert ImplicitBuilt(os[k], reg, g, es, path);
      ResolvedTyped(os[k], reg[g], PrimaryAlias(reg[g]), Dot(path, PrimaryAlias(reg[g])), Map(LooseEntries(reg, g, es)));
      assert os[k].alias in reg[g].aliases && Conforms(os[k], reg[g]);
    }
  }

  /**
   * Builds the tree named `rootName` over document `doc`: the root section's
   * path is its name, and a document that is not a mapping aborts the build.
   */
  function Build(rootName: string, doc: Value, reg: seq<Handler>): (r: Result<Section, BuildError>)
    ensures !doc.Map? ==> r == Err(NotAMapping(rootName))
  {
    if doc.Map? then BuildSection(reg, rootName, None, rootName, rootName, doc)
    else Err(NotAMapping(rootName))
  }

  /**
   * A built tree's root has the tree's name as name and path, no parent and
   * the whole document as content, and satisfies the tree invariant.
   */
  lemma BuildOk(rootName: string, doc: Value, reg: seq<Handler>)
    ensures var r := Build(rootName, doc, reg);
      r.Ok? ==> r.value.name == rootName && r.value.path == rootName && r.value.parent.None? &&
                r.value.rootName == rootName && r.value.raw == doc && SectionOk(r.value, reg)
  {
    if doc.Map? {
      BuildSectionOk(reg, rootName, None, rootName, rootName, doc);
    }
  }

  /** A section is a leaf when it has content and no child sections. */
  predicate IsLeaf(s: Section)
  {
    |s.children| == 0 && s.raw.Map? && |s.raw.entries| > 0
  }

  /** `leaf_sections`: the leaves below `s`, depth first, in document order. */
  function LeafSections(s: Section): seq<Section>
    decreases s, 1
  {
    if IsLeaf(s) then [s] else LeavesFrom(s, 0)
  }

  function LeavesFrom(s: Section, i: nat): seq<Section>
    requires i <= |s.children|
    decreases s, 0, |s.children| - i
  {
    if i == |s.children| then [] else LeafSections(s.children[i]) + LeavesFrom(s, i + 1)
  }

  /** `d` is `s` or a section below it. */
  predicate Descends(s: Section, d: Section)
    decreases s
  {
    d == s || exists i :: 0 <= i < |s.children| && Descends(s.children[i], d)
  }

  /** The traversal yields exactly the leaves reachable from `s`. */
  lemma {:induction false} LeafSectionsExact(s: Section, d: Section)
    ensures d in LeafSections(s) <==> IsLeaf(d) && Descends(s, d)
    decreases s, 1
  {
    if !IsLeaf(s) {
      LeavesFromExact(s, 0, d);
    }
  }

  lemma {:induction false} LeavesFromExact(s: Section, i: nat, d: Section)
    requires i <= |s.children|
    ensures d in LeavesFrom(s, i) <==> IsLeaf(d) && exists j :: i <= j < |s.children| && Descends(s.children[j], d)
    decreases s, 0, |s.children| - i
  {
    if i < |s.children| {
      LeafSectionsExact(s.children[i], d);
      LeavesFromExact(s, i + 1, d);
    }
  }

  /**
   * Every section below a built section belongs to the same tree: it
   * satisfies the invariant, carries the root's name and its path extends
   * the section's path by a dot.
   */
  lemma UnderRoot(s: Section, reg: seq<Handler>, d: Section)
    requires SectionOk(s, reg) && Descends(s, d)
    ensures SectionOk(d, reg) && d.rootName == s.rootName
    ensures d != s ==> |d.path| >= |s.path| + 1 && d.path[..|s.path| + 1] == s.path + "."
  {
    OkBelow(s, reg, d);
    OkPlaced(s, reg);
    PlacedBelow(s, d);
  }

  /** Every child sits at its parent's path plus its name under the same root, all the way down. */
  predicate Placed(s: Section)
    decreases s
  {
    forall i :: 0 <= i < |s.children| ==>
      s.children[i].path == Dot(s.path, s.children[i].name) && s.children[i].rootName == s.rootName &&
      Placed(s.children[i])
  }

  lemma {:induction false} OkBelow(s: Section, reg: seq<Handler>, d: Section)
    requires SectionOk(s, reg) && Descends(s, d)
    ensures SectionOk(d, reg)
    decreases s
  {
    if d != s {
      var i :| 0 <= i < |s.children| && Descends(s.children[i], d);
      ChildOf(s, reg, i);
      OkBelow(s.children[i], reg, d);
    }
  }

  lemma {:induction false} OkPlaced(s: Section, reg: seq<Handler>)
    requires SectionOk(s, reg)
    ensures Placed(s)
    decreases s
  {
    forall i | 0 <= i < |s.children|
      ensures s.children[i].path == Dot(s.path, s.children[i].name) && s.children[i].rootName == s.rootName &&
              Placed(s.children[i])
    {
      ChildOf(s, reg, i);
      OkPlaced(s.children[i], reg);
    }
  }

  lemma {:induction false} PlacedBelow(s: Section, d: Section)
    requires Placed(s) && Descends(s, d)
    ensures d.rootName == s.rootName
    ensures d != s ==> |d.path| >= |s.path| + 1 && d.path[..|s.path| + 1] == s.path + "."
    decreases s
  {
    if d != s {
      var i :| 0 <= i < |s.children| && Descends(s.children[i], d);
      var c := s.children[i];
      PlacedBelow(c, d);
      DotExtends(s.path, c.name);
      if d != c {
        PrefixTrans(s.path, c.path, d.path);
      }
    }
  }

  /** A child of a section satisfying the invariant satisfies it too, at the path plus its name, under the same root. */
  lemma ChildOf(s: Section, reg: seq<Handler>, i: nat)
    requires SectionOk(s, reg) && i < |s.children|
    ensures SectionOk(s.children[i], reg)
    ensures s.children[i].path == Dot(s.path, s.children[i].name) && s.children[i].rootName == s.rootName
  {
    assert ChildPlaced(s.children[i], ChildEntries(reg, s.raw.entries, 0)[i], s.rootName, s.name, s.path);
  }

  lemma PrefixTrans(p: string, q: string, r: string)
    requires |q| >= |p| + 1 && q[..|p| + 1] == p + "."
    requires |r| >= |q| + 1 && r[..|q| + 1] == q + "."
    ensures |r| >= |p| + 1 && r[..|p| + 1] == p + "."
  {
    assert r[..|p| + 1] == r[..|q| + 1][..|p| + 1];
    assert (q + ".")[..|p| + 1] == q[..|p| + 1];
  }

  /** The position of the first override reached through attribute `attr`. */
  function FirstNamed(os: seq<Override>, attr: string): (r: Option<nat>)
    ensures r.None? <==> forall k :: 0 <= k < |os| ==> AttrName(os[k].Name()) != attr
    ensures r.Some? ==> r.value < |os| && AttrName(os[r.value].Name()) == attr
    ensures r.Some? ==> forall j :: 0 <= j < r.value ==> AttrName(os[j].Name()) != attr
  {
    if |os| == 0 then None
    else if AttrName(os[0].Name()) == attr then Some(0)
    else
      assert forall k :: 1 <= k < |os| ==> os[k] == os[1..][k - 1];
      match FirstNamed(os[1..], attr)
      case None => None
      case Some(k) => Some(k + 1)
  }

  /**
   * Dynamic attribute access on a section (`leaf.message_alt`): the override
   * whose alias reads as `attr`, or None when there is none.
   */
  function Get(s: Section, attr: string): (r: Option<Override>)
    ensures r.None? <==> forall k :: 0 <= k < |s.overrides| ==> AttrName(s.overrides[k].Name()) != attr
    ensures r.Some? ==> r.value in s.overrides && AttrName(r.value.Name()) == attr
  {
    match FirstNamed(s.overrides, attr)
    case None => None
    case Some(k) => Some(s.overrides[k])
  }

  /** Every section of `ss` reaches an override through attribute `attr`. */
  predicate AllHave(ss: seq<Section>, attr: string)
  {
    forall i :: 0 <= i < |ss| ==> Get(ss[i], attr).Some?
  }

  /** Looking a recognised key up among the recognised entries finds what looking it up in all of them finds. */
  lemma {:induction false} RecognisedLookup(reg: seq<Handler>, es: seq<KV>, i: nat, k: string)
    requires i <= |es| && ResolveIndex(reg, k).Some?
    ensures Lookup(OverrideEntries(reg, es, i), k) == Lookup(es[i..], k)
    decreases |es| - i
  {
    if i < |es| {
      RecognisedLookup(reg, es, i + 1, k);
      ClassifyExact(reg, es[i].key, es[i].val);
      var rest := OverrideEntries(reg, es, i + 1);
      LookupFrom(es, i, k);
      if ResolveIndex(reg, es[i].key).Some? {
        assert OverrideEntries(reg, es, i) == [es[i]] + rest;
        LookupCons(es[i], rest, k);
      } else {
        assert OverrideEntries(reg, es, i) == rest;
      }
    }
  }

  lemma LookupFrom(es: seq<KV>, i: nat, k: string)
    requires i < |es|
    ensures Lookup(es[i..], k) == if es[i].key == k then Some(es[i].val) else Lookup(es[i + 1..], k)
  {
    assert es[i..][1..] == es[i + 1..];
  }

  lemma LookupCons(kv: KV, rest: seq<KV>, k: string)
    ensures Lookup([kv] + rest, k) == if kv.key == k then Some(kv.val) else Lookup(rest, k)
  {
    assert ([kv] + rest)[1..] == rest;
  }

  /**
   * Attribute access reads back the document: on a built section, the
   * attribute of a recognised key `k` is an override whose content is what
   * followed the first `k` in the section's mapping, provided no other
   * recognised key of the section shares `k`'s attribute spelling.
   */
  lemma ContentReadsBack(s: Section, reg: seq<Handler>, k: string)
    requires SectionOk(s, reg)
    requires ResolveIndex(reg, k).Some? && Lookup(s.raw.entries, k).Some?
    requires forall kv :: kv in s.raw.entries && ResolveIndex(reg, kv.key).Some? && AttrName(kv.key) == AttrName(k) ==> kv.key == k
    ensures Get(s, AttrName(k)).Some? && !Get(s, AttrName(k)).value.Terminal? && Get(s, AttrName(k)).value.Name() == k
    ensures OverrideAccess.Content(Get(s, AttrName(k)).value) == Lookup(s.raw.entries, k).value
  {
    RecognisedLookupAll(reg, s.raw.entries, k);
    ExplicitsRead(s, reg);
    RecognisedUnique(reg, s.raw.entries, k);
    ReadBack(s, OverrideEntries(reg, s.raw.entries, 0), k);
  }

  lemma RecognisedLookupAll(reg: seq<Handler>, es: seq<KV>, k: string)
    requires ResolveIndex(reg, k).Some?
    ensures Lookup(OverrideEntries(reg, es, 0), k) == Lookup(es, k)
  {
    RecognisedLookup(reg, es, 0, k);
    assert es[0..] == es;
  }

  lemma RecognisedUnique(reg: seq<Handler>, es: seq<KV>, k: string)
    requires forall kv :: kv in es && ResolveIndex(reg, kv.key).Some? && AttrName(kv.key) == AttrName(k) ==> kv.key == k
    ensures forall kv :: kv in OverrideEntries(reg, es, 0) && AttrName(kv.key) == AttrName(k) ==> kv.key == k
  {
  }

  /** The overrides `os` start with one per entry of `kvs`, in order, each under that entry's key and holding its value. */
  predicate OverridesRead(os: seq<Override>, kvs: seq<KV>)
  {
    |kvs| <= |os| &&
    forall q :: 0 <= q < |kvs| ==> !os[q].Terminal? && os[q].alias == kvs[q].key && os[q].raw == kvs[q].val
  }

  lemma ExplicitsRead(s: Section, reg: seq<Handler>)
    requires SectionOk(s, reg)
    ensures OverridesRead(s.overrides, OverrideEntries(reg, s.raw.entries, 0))
  {
    var oe := OverrideEntries(reg, s.raw.entries, 0);
    forall q | 0 <= q < |oe|
      ensures !s.overrides[q].Terminal? && s.overrides[q].alias == oe[q].key && s.overrides[q].raw == oe[q].val
    {
      ExplicitAt(s, reg, q);
    }
    if |oe| > 0 {
      ExplicitAt(s, reg, 0);
    }
  }

  /** The first override read under `k`'s spelling is the one of `k`'s first entry, when no other key shares that spelling. */
  lemma ReadBack(s: Section, kvs: seq<KV>, k: string)
    requires OverridesRead(s.overrides, kvs) && Lookup(kvs, k).Some?
    requires forall kv :: kv in kvs && AttrName(kv.key) == AttrName(k) ==> kv.key == k
    ensures Get(s, AttrName(k)).Some? && !Get(s, AttrName(k)).value.Terminal? && Get(s, AttrName(k)).value.Name() == k
    ensures OverrideAccess.Content(Get(s, AttrName(k)).value) == Lookup(kvs, k).value
  {
    var os, attr := s.overrides, AttrName(k);
    var q :| 0 <= q < |kvs| && kvs[q].key == k && kvs[q].val == Lookup(kvs, k).value && forall j :: 0 <= j < q ==> kvs[j].key != k;
    forall j | 0 <= j < q
      ensures AttrName(os[j].Name()) != attr
    {
      assert kvs[j] in kvs;
    }
    assert AttrName(os[q].Name()) == attr;
    var r := FirstNamed(os, attr);
    assert r.value == q;
  }

  /** The `q`-th override of a built section is the one of its `q`-th recognised key. */
  lemma ExplicitAt(s: Section, reg: seq<Handler>, q: nat)
    requires SectionOk(s, reg) && q < |OverrideEntries(reg, s.raw.entries, 0)|
    ensures q < |s.overrides|
    ensures var kv := OverrideEntries(reg, s.raw.entries, 0)[q];
      !s.overrides[q].Terminal? && s.overrides[q].alias == kv.key && s.overrides[q].raw == kv.val
  {
    var oe := OverrideEntries(reg, s.raw.entries, 0);
    var explicit := s.overrides[..|oe|];
    assert ExplicitsBuilt(explicit, reg, s.path, s.raw.entries, 0);
    assert ExplicitBuilt(explicit[q], oe[q], reg, s.path);
  }
}
