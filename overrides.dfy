/**
 * Overrides: the resolved views over the value that follows a reserved key,
 * and the resolution of mapped overrides into ordered instances of member
 * overrides (StructROverrideBase / StructRMappedOverrideBase as used by
 * tests/unit/test_ystruct.py).
 */
module Overrides {
  import opened Wrappers
  import opened Document
  import opened Registry
  import opened Paths
  import opened Seqs

  /**
   * A resolved override. `alias` is the key spelling actually used
   * (`_override_name`), `path` its dotted path (`_override_path`), `raw` the
   * content that followed the key. A mapped
   * override holds its instances, each an ordered sequence of member
   * overrides; a terminal is a bare name in a mapped family.
   */
  datatype Override =
    | Plain(cls: string, alias: string, path: string, raw: Value)
    | Mapped(cls: string, alias: string, path: string, raw: Value, instances: seq<Instance>)
    | Terminal(name: string, path: string)
  {
    /** `_override_name`. */
    function Name(): string
    {
      if Terminal? then name else alias
    }
  }

  /** One instance of a mapped override: its member overrides in order. */
  datatype Instance = Instance(entries: seq<Override>)

  /** What aborts a build: a section whose content is not a mapping, or a mapped value of the wrong shape. */
  datatype BuildError = NotAMapping(at: string) | Malformed(at: string)

  /** The normalisation rule: items that may be merged into a single instance. */
  predicate Collapsible(item: Value)
  {
    item.Str? || (item.Map? && |item.entries| == 1)
  }

  /** A non-empty list of collapsible items merges into one instance. */
  predicate Collapses(items: seq<Value>)
  {
    |items| > 0 && forall i :: 0 <= i < |items| ==> Collapsible(items[i])
  }

  /** Where one entry of an instance comes from: a key of a mapping with its value, or a bare string. */
  datatype Slot = Keyed(key: string, val: Value) | Bare(name: string)

  /** The slots a piece of content contributes: a mapping's keys in order, or one string. */
  function Slots(v: Value): (r: seq<Slot>)
    ensures v.Map? ==> |r| == |v.entries| && forall k :: 0 <= k < |r| ==> r[k] == Keyed(v.entries[k].key, v.entries[k].val)
    ensures v.Str? ==> r == [Bare(v.s)]
    ensures !(v.Map? || v.Str?) ==> r == []
  {
    match v
    case Map(es) => seq(|es|, k requires 0 <= k < |es| => Keyed(es[k].key, es[k].val))
    case Str(s) => [Bare(s)]
    case _ => []
  }

  /** The slots of the items from position `i` on, concatenated in list order. */
  function ListSlots(items: seq<Value>, i: nat): seq<Slot>
    requires i <= |items|
    decreases |items| - i
  {
    if i == |items| then [] else Slots(items[i]) + ListSlots(items, i + 1)
  }

  /** The slots of each item from position `i` on, one run per item. */
  function ItemSlots(items: seq<Value>, i: nat): seq<seq<Slot>>
    requires i <= |items|
  {
    seq(|items| - i, k requires 0 <= k < |items| - i => Slots(items[i + k]))
  }

  /**
   * The slots of each instance that `raw` normalises to: a mapping or a
   * string is one instance; a collapsing list is one instance holding its
   * items' slots in list order; any other list is one instance per item.
   */
  function Normalised(raw: Value): seq<seq<Slot>>
  {
    match raw
    case List(items) =>
      if Collapses(items) then [ListSlots(items, 0)]
      else ItemSlots(items, 0)
    case _ => [Slots(raw)]
  }

  /** Every override nested in `o` has its parent's path followed by its own name. */
  predicate PathsOk(o: Override)
    decreases o
  {
    o.Mapped? ==>
      forall i, j :: 0 <= i < |o.instances| && 0 <= j < |o.instances[i].entries| ==>
        o.instances[i].entries[j].path == Dot(o.path, o.instances[i].entries[j].Name()) &&
        PathsOk(o.instances[i].entries[j])
  }

  /**
   * `o` is typed by handler `h`: a plain override of a plain handler, or a
   * mapped override of a mapped handler whose every entry is a terminal or
   * an override of the first member type of `h` recognising its key.
   */
  predicate Conforms(o: Override, h: Handler)
    decreases o, 0
  {
    match o
    case Terminal(_, _) => true
    case Plain(cls, _, _, _) => cls == h.cls && !h.mapped
    case Mapped(cls, _, _, _, insts) =>
      cls == h.cls && h.mapped &&
      forall i, j :: 0 <= i < |insts| && 0 <= j < |insts[i].entries| ==> MemberConforms(insts[i].entries[j], h.members)
  }

  predicate MemberConforms(e: Override, members: seq<Handler>)
    decreases e, 1
  {
    e.Terminal? ||
    (ResolveIndex(members, e.alias).Some? && Conforms(e, members[ResolveIndex(members, e.alias).value]))
  }

  /** An entry of an instance of the override at `path`. */
  predicate EntryOk(e: Override, members: seq<Handler>, path: string)
  {
    e.path == Dot(path, e.Name()) && PathsOk(e) && MemberConforms(e, members)
  }

  /**
   * What handler `h` makes of `raw` reached through `alias` at `path`: an
   * override of `h`'s class recording the alias, the path and the raw content;
   * a mapped one holds one instance per normalised instance of `raw`, each
   * with one entry per slot, in slot order.
   */
  predicate Resolved(o: Override, h: Handler, alias: string, path: string, raw: Value)
    decreases o, 0
  {
    !o.Terminal? && o.cls == h.cls && o.alias == alias && o.path == path && o.raw == raw &&
    (o.Mapped? <==> h.mapped) &&
    (o.Mapped? ==>
      |o.instances| == |Normalised(raw)| &&
      forall i :: 0 <= i < |o.instances| ==> InstanceBuilt(o.instances[i], h.members, path, Normalised(raw)[i]))
  }

  /** `inst` holds, in order, the entry each slot of `ss` yields at `path`. */
  predicate InstanceBuilt(inst: Instance, members: seq<Handler>, path: string, ss: seq<Slot>)
    decreases inst, 2
  {
    |inst.entries| == |ss| &&
    forall j :: 0 <= j < |ss| ==> SlotBuilt(inst.entries[j], members, path, ss[j])
  }

  /**
   * `e` is the entry slot `s` yields at `path`: a bare string is a terminal
   * of that name, a key no member type recognises a terminal named by the
   * key, and any other key what the first member type recognising it makes
   * of its value.
   */
  predicate SlotBuilt(e: Override, members: seq<Handler>, path: string, s: Slot)
    decreases e, 1
  {
    match s
    case Bare(n) => e == Terminal(n, Dot(path, n))
    case Keyed(key, val) =>
      match ResolveIndex(members, key)
      case None => e == Terminal(key, Dot(path, key))
      case Some(k) => Resolved(e, members[k], key, Dot(path, key), val)
  }

  /**
   * A resolved override is well typed and well placed: every nested override
   * sits at its parent's path plus its name and is typed by the member type
   * recognising its key.
   */
  lemma {:induction false} ResolvedTyped(o: Override, h: Handler, alias: string, path: string, raw: Value)
    requires Resolved(o, h, alias, path, raw)
    decreases o, 0
    ensures PathsOk(o) && Conforms(o, h)
  {
    if o.Mapped? {
      forall i, j | 0 <= i < |o.instances| && 0 <= j < |o.instances[i].entries|
        ensures EntryOk(o.instances[i].entries[j], h.members, path)
      {
        assert InstanceBuilt(o.instances[i], h.members, path, Normalised(raw)[i]);
        SlotTyped(o.instances[i].entries[j], h.members, path, Normalised(raw)[i][j]);
      }
    }
  }

  lemma {:induction false} SlotTyped(e: Override, members: seq<Handler>, path: string, s: Slot)
    requires SlotBuilt(e, members, path, s)
    decreases e, 1
    ensures EntryOk(e, members, path)
  {
    if s.Keyed? {
      match ResolveIndex(members, s.key)
      case None =>
      case Some(k) =>
        ResolvedTyped(e, members[k], s.key, Dot(path, s.key), s.val);
    }
  }

  /** The override handler `h` yields for `raw` reached through `alias`. */
  function ResolveWith(h: Handler, alias: string, path: string, raw: Value): (r: Result<Override, BuildError>)
    decreases raw, 3, 0
    ensures !h.mapped ==> r.Ok? && r.value.Plain?
  {
    if h.mapped then ResolveMapped(h, alias, path, raw)
    else Ok(Plain(h.cls, alias, path, raw))
  }

  /**
   * A mapped override: `raw` normalised into instances, each key of each
   * instance resolved against the member types `h` declares.
   */
  function ResolveMapped(h: Handler, alias: string, path: string, raw: Value): (r: Result<Override, BuildError>)
    requires h.mapped
    decreases raw, 2, 0
    ensures raw.Str? ==> r.Ok? && r.value.Mapped? && |r.value.instances| == 1
    ensures !(raw.Map? || raw.Str? || raw.List?) ==> r == Err(Malformed(path))
  {
    match raw
    case Map(_) =>
      var es :- ResolveEntries(h.members, path, raw, 0);
      Ok(Mapped(h.cls, alias, path, raw, [Instance(es)]))
    case Str(s) =>
      Ok(Mapped(h.cls, alias, path, raw, [Instance([Terminal(s, Dot(path, s))])]))
    case List(items) =>
      if Collapses(items) then
        var es :- Collapsed(h.members, path, raw, 0);
        Ok(Mapped(h.cls, alias, path, raw, [Instance(es)]))
      else
        var insts :- EachItem(h.members, path, raw, 0);
        Ok(Mapped(h.cls, alias, path, raw, insts))
    case _ => Err(Malformed(path))
  }

  /** The entries of one instance: its keys in order, each resolved against `members`. */
  function ResolveEntries(members: seq<Handler>, path: string, m: Value, i: nat): (r: Result<seq<Override>, BuildError>)
    requires m.Map? && i <= |m.entries|
    decreases m, 0, |m.entries| - i
    ensures r.Ok? ==> |r.value| == |m.entries| - i
  {
    if i == |m.entries| then Ok([])
    else
      assert m.entries[i] in m.entries;
      var e :- ResolveEntry(members, path, m.entries[i].key, m.entries[i].val);
      var rest :- ResolveEntries(members, path, m, i + 1);
      Ok([e] + rest)
  }

  /**
   * One key of an instance: an override of the first member type recognising
   * it, or, when none does, a terminal named by the key.
   */
  function ResolveEntry(members: seq<Handler>, path: string, key: string, val: Value): (r: Result<Override, BuildError>)
    decreases val, 4, 0
    ensures ResolveIndex(members, key).None? ==> r == Ok(Terminal(key, Dot(path, key)))
  {
    match ResolveIndex(members, key)
    case None => Ok(Terminal(key, Dot(path, key)))
    case Some(k) => ResolveWith(members[k], key, Dot(path, key), val)
  }

  /** The entries one list item contributes: a mapping's keys, or a bare string as a terminal. */
  function ItemEntries(members: seq<Handler>, path: string, item: Value): (r: Result<seq<Override>, BuildError>)
    decreases item, 1, 0
    ensures !(item.Map? || item.Str?) ==> r == Err(Malformed(path))
    ensures r.Ok? && Collapsible(item) ==> |r.value| == 1
  {
    match item
    case Map(_) => ResolveEntries(members, path, item, 0)
    case Str(s) => Ok([Terminal(s, Dot(path, s))])
    case _ => Err(Malformed(path))
  }

  /** A collapsing list: the entries of all its items, in list order, as one instance. */
  function Collapsed(members: seq<Handler>, path: string, raw: Value, i: nat): (r: Result<seq<Override>, BuildError>)
    requires raw.List? && i <= |raw.items|
    decreases raw, 1, |raw.items| - i
  {
    if i == |raw.items| then Ok([])
    else
      var es :- ItemEntries(members, path, raw.items[i]);
      var rest :- Collapsed(members, path, raw, i + 1);
      Ok(es + rest)
  }

  /** Any other list: one instance per item, in list order. */
  function EachItem(members: seq<Handler>, path: string, raw: Value, i: nat): (r: Result<seq<Instance>, BuildError>)
    requires raw.List? && i <= |raw.items|
    decreases raw, 1, |raw.items| - i
    ensures r.Ok? ==> |r.value| == |raw.items| - i
  {
    if i == |raw.items| then Ok([])
    else
      var es :- ItemEntries(members, path, raw.items[i]);
      var rest :- EachItem(members, path, raw, i + 1);
      Ok([Instance(es)] + rest)
  }

  // What a successful resolution guarantees, proved alongside the functions' own recursion.

  /**
   * A success is what the handler makes of the content: its class, the alias
   * used, the path and the raw content, and for a mapped handler the
   * normalised instances, each entry resolved from its slot.
   */
  lemma ResolveWithOk(h: Handler, alias: string, path: string, raw: Value)
    decreases raw, 3, 0
    ensures var r := ResolveWith(h, alias, path, raw); r.Ok? ==> Resolved(r.value, h, alias, path, raw)
  {
    if h.mapped {
      ResolveMappedOk(h, alias, path, raw);
    }
  }

  lemma ResolveMappedOk(h: Handler, alias: string, path: string, raw: Value)
    requires h.mapped
    decreases raw, 2, 0
    ensures var r := ResolveMapped(h, alias, path, raw); r.Ok? ==> Resolved(r.value, h, alias, path, raw)
  {
    match raw
    case Map(_) =>
      ResolveEntriesOk(h.members, path, raw, 0);
      var r := ResolveEntries(h.members, path, raw, 0);
      if r.Ok? {
        assert Slots(raw)[0..] == Slots(raw);
        MappedResolved(h, alias, path, raw, [Instance(r.value)]);
      }
    case Str(s) =>
      MappedResolved(h, alias, path, raw, [Instance([Terminal(s, Dot(path, s))])]);
    case List(items) =>
      if Collapses(items) {
        CollapsedOk(h.members, path, raw, 0);
        var r := Collapsed(h.members, path, raw, 0);
        if r.Ok? {
          MappedResolved(h, alias, path, raw, [Instance(r.value)]);
        }
      } else {
        EachItemOk(h.members, path, raw, 0);
        var r := EachItem(h.members, path, raw, 0);
        if r.Ok? {
          MappedResolved(h, alias, path, raw, r.value);
        }
      }
    case _ =>
  }

  /** A mapped override is resolved once each of its instances holds the entries of its normalised slots. */
  lemma MappedResolved(h: Handler, alias: string, path: string, raw: Value, insts: seq<Instance>)
    requires h.mapped && |insts| == |Normalised(raw)|
    requires forall k :: 0 <= k < |insts| ==> InstanceBuilt(insts[k], h.members, path, Normalised(raw)[k])
    ensures Resolved(Mapped(h.cls, alias, path, raw, insts), h, alias, path, raw)
  {
  }

  /**
   * An instance has one entry per key from position `i` on, in key order,
   * each resolved from that key and its value.
   */
  lemma ResolveEntriesOk(members: seq<Handler>, path: string, m: Value, i: nat)
    requires m.Map? && i <= |m.entries|
    decreases m, 0, |m.entries| - i
    ensures var r := ResolveEntries(members, path, m, i);
      r.Ok? ==> InstanceBuilt(Instance(r.value), members, path, Slots(m)[i..])
  {
    if i < |m.entries| {
      var kv := m.entries[i];
      assert kv in m.entries;
      var e := ResolveEntry(members, path, kv.key, kv.val);
      var rest := ResolveEntries(members, path, m, i + 1);
      ResolveEntriesOk(members, path, m, i + 1);
      if e.Ok? && rest.Ok? {
        ResolveEntryOk(members, path, kv.key, kv.val);
        SlotsFrom(m, i);
        OneSlot(e.value, members, path, Keyed(kv.key, kv.val));
        InstanceAppend(members, path, [e.value], rest.value, [Keyed(kv.key, kv.val)], Slots(m)[i + 1..]);
      }
    }
  }

  lemma SlotsFrom(m: Value, i: nat)
    requires m.Map? && i < |m.entries|
    ensures Slots(m)[i..] == [Keyed(m.entries[i].key, m.entries[i].val)] + Slots(m)[i + 1..]
  {
    assert Slots(m)[i..] == [Slots(m)[i]] + Slots(m)[i + 1..];
  }

  lemma OneSlot(e: Override, members: seq<Handler>, path: string, s: Slot)
    requires SlotBuilt(e, members, path, s)
    ensures InstanceBuilt(Instance([e]), members, path, [s])
  {
  }

  /** Entries built from two runs of slots, side by side, are built from the joined run. */
  lemma InstanceAppend(members: seq<Handler>, path: string, a: seq<Override>, b: seq<Override>, sa: seq<Slot>, sb: seq<Slot>)
    requires InstanceBuilt(Instance(a), members, path, sa) && InstanceBuilt(Instance(b), members, path, sb)
    ensures InstanceBuilt(Instance(a + b), members, path, sa + sb)
  {
    forall j | 0 <= j < |sa + sb|
      ensures SlotBuilt((a + b)[j], members, path, (sa + sb)[j])
    {
      if j >= |a| {
        assert (a + b)[j] == b[j - |a|] && (sa + sb)[j] == sb[j - |a|];
      } else {
        assert (a + b)[j] == a[j] && (sa + sb)[j] == sa[j];
      }
    }
  }

  /**
   * One key of an instance: named by the key; a terminal at the path plus
   * the key exactly when no member type recognises it, and otherwise an
   * override holding the key's value, as its member type resolves it.
   */
  lemma ResolveEntryOk(members: seq<Handler>, path: string, key: string, val: Value)
    decreases val, 4, 0
    ensures var r := ResolveEntry(members, path, key, val);
      r.Ok? ==> SlotBuilt(r.value, members, path, Keyed(key, val)) && r.value.Name() == key &&
                (r.value.Terminal? <==> ResolveIndex(members, key).None?) &&
                (!r.value.Terminal? ==> r.value.raw == val)
  {
    match ResolveIndex(members, key)
    case None =>
    case Some(k) =>
      ResolveWithOk(members[k], key, Dot(path, key), val);
  }

  /** The entries of one list item are resolved from its slots: a mapping's keys in order, or its string. */
  lemma ItemEntriesOk(members: seq<Handler>, path: string, item: Value)
    decreases item, 1, 0
    ensures var r := ItemEntries(members, path, item);
      r.Ok? ==> InstanceBuilt(Instance(r.value), members, path, Slots(item))
  {
    if item.Map? {
      ResolveEntriesOk(members, path, item, 0);
      assert Slots(item)[0..] == Slots(item);
    }
  }

  /** A collapsing list's one instance holds the entries of its items' slots, in list order. */
  lemma {:induction false} CollapsedOk(members: seq<Handler>, path: string, raw: Value, i: nat)
    requires raw.List? && i <= |raw.items|
    decreases raw, 1, |raw.items| - i
    ensures var r := Collapsed(members, path, raw, i);
      r.Ok? ==> InstanceBuilt(Instance(r.value), members, path, ListSlots(raw.items, i))
  {
    if i < |raw.items| {
      assert raw.items[i] in raw.items;
      ItemEntriesOk(members, path, raw.items[i]);
      CollapsedOk(members, path, raw, i + 1);
      var es := ItemEntries(members, path, raw.items[i]);
      var rest := Collapsed(members, path, raw, i + 1);
      if es.Ok? && rest.Ok? {
        InstanceAppend(members, path, es.value, rest.value, Slots(raw.items[i]), ListSlots(raw.items, i + 1));
      }
    }
  }

  /** Any other list: instance `k` holds the entries of item `i + k`. */
  lemma {:induction false} EachItemOk(members: seq<Handler>, path: string, raw: Value, i: nat)
    requires raw.List? && i <= |raw.items|
    decreases raw, 1, |raw.items| - i
    ensures EachItemFrom(members, path, raw, i)
  {
    if i < |raw.items| {
      assert raw.items[i] in raw.items;
      ItemEntriesOk(members, path, raw.items[i]);
      EachItemOk(members, path, raw, i + 1);
      EachItemStep(members, path, raw, i);
    }
  }

  lemma EachItemStep(members: seq<Handler>, path: string, raw: Value, i: nat)
    requires raw.List? && i < |raw.items|
    requires var h := ItemEntries(members, path, raw.items[i]);
      h.Ok? ==> InstanceBuilt(Instance(h.value), members, path, Slots(raw.items[i]))
    requires EachItemFrom(members, path, raw, i + 1)
    ensures EachItemFrom(members, path, raw, i)
  {
    assert raw.items[i] in raw.items;
    var h := ItemEntries(members, path, raw.items[i]);
    var rest := EachItem(members, path, raw, i + 1);
    if h.Ok? && rest.Ok? {
      assert EachItem(members, path, raw, i) == Ok([Instance(h.value)] + rest.value);
      ItemsCons(Instance(h.value), rest.value, members, path, raw.items, i);
    }
  }

  /** The instances of the items from position `i` on, when they build, are built one per item from its slots. */
  predicate EachItemFrom(members: seq<Handler>, path: string, raw: Value, i: nat)
    requires raw.List? && i <= |raw.items|
  {
    var r := EachItem(members, path, raw, i);
    r.Ok? ==> ItemsBuilt(r.value, members, path, raw.items, i)
  }

  /** `insts` are built, one per item, from the items of `items` from position `i` on. */
  predicate ItemsBuilt(insts: seq<Instance>, members: seq<Handler>, path: string, items: seq<Value>, i: nat)
    requires i <= |items|
  {
    |insts| == |items| - i &&
    forall k :: 0 <= k < |insts| ==> InstanceBuilt(insts[k], members, path, ItemSlots(items, i)[k])
  }

  lemma ItemsCons(head: Instance, rest: seq<Instance>, members: seq<Handler>, path: string, items: seq<Value>, i: nat)
    requires i < |items|
    requires InstanceBuilt(head, members, path, Slots(items[i]))
    requires ItemsBuilt(rest, members, path, items, i + 1)
    ensures ItemsBuilt([head] + rest, members, path, items, i)
  {
    ItemSlotsCons(items, i);
    InstancesShift(head, rest, members, path, Slots(items[i]), ItemSlots(items, i + 1));
  }

  lemma ItemSlotsCons(items: seq<Value>, i: nat)
    requires i < |items|
    ensures ItemSlots(items, i) == [Slots(items[i])] + ItemSlots(items, i + 1)
  {
    forall k | 1 <= k < |items| - i ensures ItemSlots(items, i)[k] == ItemSlots(items, i + 1)[k - 1] {
      assert i + k == (i + 1) + (k - 1);
    }
  }

  lemma InstancesShift(head: Instance, rest: seq<Instance>, members: seq<Handler>, path: string, s: seq<Slot>, ss: seq<seq<Slot>>)
    requires InstanceBuilt(head, members, path, s) && |rest| == |ss|
    requires forall k :: 0 <= k < |rest| ==> InstanceBuilt(rest[k], members, path, ss[k])
    ensures forall k :: 0 <= k < |rest| + 1 ==> InstanceBuilt(([head] + rest)[k], members, path, ([s] + ss)[k])
  {
    PairsCons(head, rest, s, ss, (x, y) => InstanceBuilt(x, members, path, y));
  }

  // When resolution succeeds

  /**
   * `raw` is content handler `h` can resolve: anything, for a plain type;
   * for a mapped type, content its normalisation accepts.
   */
  predicate Shaped(h: Handler, raw: Value)
    decreases raw, 3
  {
    h.mapped ==> ContentShaped(h.members, raw)
  }

  /**
   * Content a mapped type accepts: a mapping whose recognised keys hold
   * content their member types accept, a bare string, or a list of such
   * mappings and strings; a null, a boolean or a number is refused.
   */
  predicate ContentShaped(members: seq<Handler>, raw: Value)
    decreases raw, 2
  {
    match raw
    case Map(es) => forall k :: 0 <= k < |es| ==> EntryShaped(members, es[k].key, es[k].val)
    case Str(_) => true
    case List(items) => forall k :: 0 <= k < |items| ==> ItemShaped(members, items[k])
    case _ => false
  }

  /** A list item a mapped type accepts: a bare string, or a mapping it accepts. */
  predicate ItemShaped(members: seq<Handler>, item: Value)
    decreases item, 3
  {
    (item.Map? || item.Str?) && ContentShaped(members, item)
  }

  /** A key of an instance resolves: no member type recognises it, or the first that does accepts its value. */
  predicate EntryShaped(members: seq<Handler>, key: string, val: Value)
    decreases val, 4
  {
    match ResolveIndex(members, key)
    case None => true
    case Some(k) => Shaped(members[k], val)
  }

  /** Resolution succeeds exactly on content the handler accepts; otherwise it reports the content as malformed. */
  lemma ResolveWithShaped(h: Handler, alias: string, path: string, raw: Value)
    decreases raw, 3, 0
    ensures ResolveWith(h, alias, path, raw).Ok? <==> Shaped(h, raw)
  {
    if h.mapped {
      ResolveMappedShaped(h, alias, path, raw);
    }
  }

  /** A mapped override resolves exactly when its content is a mapping, string or list the type accepts. */
  lemma ResolveMappedShaped(h: Handler, alias: string, path: string, raw: Value)
    requires h.mapped
    decreases raw, 2, 0
    ensures ResolveMapped(h, alias, path, raw).Ok? <==> ContentShaped(h.members, raw)
  {
    match raw
    case Map(_) =>
      ResolveEntriesShaped(h.members, path, raw, 0);
    case Str(_) =>
    case List(items) =>
      if Collapses(items) {
        CollapsedShaped(h.members, path, raw, 0);
      } else {
        EachItemShaped(h.members, path, raw, 0);
      }
    case _ =>
  }

  /** The keys of an instance from position `i` on resolve exactly when each of them does. */
  lemma ResolveEntriesShaped(members: seq<Handler>, path: string, m: Value, i: nat)
    requires m.Map? && i <= |m.entries|
    decreases m, 0, |m.entries| - i
    ensures ResolveEntries(members, path, m, i).Ok?
      <==> forall k :: i <= k < |m.entries| ==> EntryShaped(members, m.entries[k].key, m.entries[k].val)
  {
    if i < |m.entries| {
      assert m.entries[i] in m.entries;
      ResolveEntryShaped(members, path, m.entries[i].key, m.entries[i].val);
      ResolveEntriesShaped(members, path, m, i + 1);
    }
  }

  /** One key resolves exactly when it is shaped for the member type recognising it, if any. */
  lemma ResolveEntryShaped(members: seq<Handler>, path: string, key: string, val: Value)
    decreases val, 4, 0
    ensures ResolveEntry(members, path, key, val).Ok? <==> EntryShaped(members, key, val)
  {
    match ResolveIndex(members, key)
    case None =>
    case Some(k) =>
      ResolveWithShaped(members[k], key, Dot(path, key), val);
  }

  /** A list item contributes entries exactly when it is a string or an accepted mapping. */
  lemma ItemEntriesShaped(members: seq<Handler>, path: string, item: Value)
    decreases item, 1, 0
    ensures ItemEntries(members, path, item).Ok? <==> ItemShaped(members, item)
  {
    if item.Map? {
      ResolveEntriesShaped(members, path, item, 0);
    }
  }

  /** A collapsing list resolves from item `i` on exactly when each of those items is accepted. */
  lemma CollapsedShaped(members: seq<Handler>, path: string, raw: Value, i: nat)
    requires raw.List? && i <= |raw.items|
    decreases raw, 1, |raw.items| - i
    ensures Collapsed(members, path, raw, i).Ok?
      <==> forall k :: i <= k < |raw.items| ==> ItemShaped(members, raw.items[k])
  {
    if i < |raw.items| {
      ItemEntriesShaped(members, path, raw.items[i]);
      CollapsedShaped(members, path, raw, i + 1);
    }
  }

  /** Any other list resolves from item `i` on exactly when each of those items is accepted. */
  lemma EachItemShaped(members: seq<Handler>, path: string, raw: Value, i: nat)
    requires raw.List? && i <= |raw.items|
    decreases raw, 1, |raw.items| - i
    ensures EachItem(members, path, raw, i).Ok?
      <==> forall k :: i <= k < |raw.items| ==> ItemShaped(members, raw.items[k])
  {
    if i < |raw.items| {
      ItemEntriesShaped(members, path, raw.items[i]);
      EachItemShaped(members, path, raw, i + 1);
    }
  }
}
