/**
 * The read surface of resolved overrides: iterating a mapped override's
 * members, collecting a named member across instances, raw content, the
 * `all` view of a group and the flattened names of a leaf-style family.
 */
module OverrideAccess {
  import opened Wrappers
  import opened Document
  import opened Registry
  import opened Paths
  import opened Overrides

  /** The entries of every instance, in instance order. */
  function Flatten(insts: seq<Instance>): (r: seq<Override>)
    ensures forall e :: e in r <==> exists i :: 0 <= i < |insts| && e in insts[i].entries
  {
    if |insts| == 0 then []
    else
      var r := insts[0].entries + Flatten(insts[1..]);
      assert forall i :: 1 <= i < |insts| ==> insts[i] == insts[1..][i - 1];
      r
  }

  /** `members`: every member override of a mapped override, in instance order. */
  function Members(o: Override): (r: seq<Override>)
    ensures !o.Mapped? ==> r == []
    ensures forall e :: e in r <==> o.Mapped? && exists i :: 0 <= i < |o.instances| && e in o.instances[i].entries
  {
    if o.Mapped? then Flatten(o.instances) else []
  }

  /** The overrides of `es` reached through attribute `attr`, in order. */
  function Named(es: seq<Override>, attr: string): (r: seq<Override>)
    ensures |r| <= |es|
    ensures forall e :: e in r <==> e in es && AttrName(e.Name()) == attr
  {
    if |es| == 0 then []
    else (if AttrName(es[0].Name()) == attr then [es[0]] else []) + Named(es[1..], attr)
  }

  /** `e` is a member of one of `os`, read under attribute `attr`. */
  predicate MemberNamed(os: seq<Override>, attr: string, e: Override)
  {
    exists k :: 0 <= k < |os| && e in Members(os[k]) && AttrName(e.Name()) == attr
  }

  /**
   * Attribute `attr` on a collection of overrides: the member named `attr`
   * from every instance of every override that defines it, in order.
   */
  function Collect(os: seq<Override>, attr: string): (r: seq<Override>)
    ensures forall e :: e in r <==> MemberNamed(os, attr, e)
  {
    if |os| == 0 then []
    else
      var r := Named(Members(os[0]), attr) + Collect(os[1..], attr);
      assert forall k :: 1 <= k < |os| ==> os[k] == os[1..][k - 1];
      r
  }

  /**
   * Dynamic attribute access on a mapped override or on a collection of
   * them: the collected members, or None when no instance defines `attr`.
   */
  function Get(os: seq<Override>, attr: string): (r: Option<seq<Override>>)
    ensures r.None? <==> forall k, e :: 0 <= k < |os| && e in Members(os[k]) ==> AttrName(e.Name()) != attr
    ensures r.Some? ==> |r.value| > 0
    ensures r.Some? ==> forall e :: e in r.value <==> MemberNamed(os, attr, e)
    ensures r.Some? ==> r.value == Collect(os, attr)
  {
    var c := Collect(os, attr);
    if |c| == 0 then None else assert c[0] in c; Some(c)
  }

  /** Flattening keeps instance order: the entries of `a` come before those of `b`. */
  lemma {:induction false} FlattenAppend(a: seq<Instance>, b: seq<Instance>)
    ensures Flatten(a + b) == Flatten(a) + Flatten(b)
  {
    if |a| == 0 {
      assert a + b == b;
    } else {
      FlattenAppend(a[1..], b);
      FlattenCons(a);
      ConsAppend(a, b);
      FlattenCons(a + b);
      Associative(a[0].entries, Flatten(a[1..]), Flatten(b));
    }
  }

  lemma FlattenCons(insts: seq<Instance>)
    requires |insts| > 0
    ensures Flatten(insts) == insts[0].entries + Flatten(insts[1..])
  {
  }

  /** One instance flattens to its own entries. */
  lemma FlattenOne(inst: Instance)
    ensures Flatten([inst]) == inst.entries
  {
    assert [inst][1..] == [];
  }

  /** Selecting by name keeps order: the selection from `a` comes before that from `b`. */
  lemma {:induction false} NamedAppend(a: seq<Override>, b: seq<Override>, attr: string)
    ensures Named(a + b, attr) == Named(a, attr) + Named(b, attr)
  {
    if |a| == 0 {
      assert a + b == b;
    } else {
      NamedAppend(a[1..], b, attr);
      NamedCons(a, attr);
      ConsAppend(a, b);
      NamedCons(a + b, attr);
      Associative(if AttrName(a[0].Name()) == attr then [a[0]] else [], Named(a[1..], attr), Named(b, attr));
    }
  }

  lemma NamedCons(es: seq<Override>, attr: string)
    requires |es| > 0
    ensures Named(es, attr) == (if AttrName(es[0].Name()) == attr then [es[0]] else []) + Named(es[1..], attr)
  {
  }

  /** Selecting by name keeps every override named `attr`, as often as it occurs, and nothing else. */
  lemma {:induction false} NamedCounts(es: seq<Override>, attr: string)
    ensures forall e :: multiset(Named(es, attr))[e] == if AttrName(e.Name()) == attr then multiset(es)[e] else 0
  {
    if |es| > 0 {
      NamedCounts(es[1..], attr);
      assert es == [es[0]] + es[1..];
    }
  }

  /** Collecting keeps override order: what `a` yields comes before what `b` yields. */
  lemma {:induction false} CollectAppend(a: seq<Override>, b: seq<Override>, attr: string)
    ensures Collect(a + b, attr) == Collect(a, attr) + Collect(b, attr)
  {
    if |a| == 0 {
      assert a + b == b;
    } else {
      CollectAppend(a[1..], b, attr);
      CollectCons(a, attr);
      ConsAppend(a, b);
      CollectCons(a + b, attr);
      Regroup(Named(Members(a[0]), attr), Collect(a[1..], attr), Collect(b, attr), Collect(a, attr), Collect(a + b, attr));
    }
  }

  lemma ConsAppend<T>(a: seq<T>, b: seq<T>)
    requires |a| > 0
    ensures (a + b)[0] == a[0] && (a + b)[1..] == a[1..] + b
  {
  }

  /** If `hx` is `h` then `x`, and `all` is `h` then `x` then `y`, then `all` is `hx` then `y`. */
  lemma Regroup<T>(h: seq<T>, x: seq<T>, y: seq<T>, hx: seq<T>, all: seq<T>)
    requires hx == h + x && all == h + (x + y)
    ensures all == hx + y
  {
    Associative(h, x, y);
  }

  lemma Associative<T>(x: seq<T>, y: seq<T>, z: seq<T>)
    ensures x + (y + z) == (x + y) + z
  {
  }

  lemma CollectCons(os: seq<Override>, attr: string)
    requires |os| > 0
    ensures Collect(os, attr) == Named(Members(os[0]), attr) + Collect(os[1..], attr)
  {
  }

  /** Attribute `attr` on one override: its members named `attr`, in instance order. */
  lemma CollectOne(o: Override, attr: string)
    ensures Collect([o], attr) == Named(Members(o), attr)
  {
    assert [o][1..] == [];
    assert Named(Members(o), attr) + [] == Named(Members(o), attr);
  }

  /** `content`: what followed the key; a terminal's content is its name. */
  function Content(o: Override): Value
  {
    if o.Terminal? then Str(o.name) else o.raw
  }

  /**
   * `StructRMappedGroupBase.all`: the content of the `settings` and `action`
   * members that are present, keyed by member name. When a member appears in
   * several instances the first one's content is taken.
   */
  method All(group: Override) returns (all: map<string, Value>)
    ensures all.Keys <= {"settings", "action"}
    ensures "settings" in all <==> Get([group], "settings").Some?
    ensures "action" in all <==> Get([group], "action").Some?
    ensures "settings" in all ==> all["settings"] == Content(Get([group], "settings").value[0])
    ensures "action" in all ==> all["action"] == Content(Get([group], "action").value[0])
  {
    all := map[];
    var settings := Get([group], "settings");
    if settings.Some? {
      all := all["settings" := Content(settings.value[0])];
    }
    var action := Get([group], "action");
    if action.Some? {
      all := all["action" := Content(action.value[0])];
    }
  }

  /**
   * What a client reaches by walking instances and items: a mapped override
   * contributes the leaves of its members, any other override itself, depth
   * first in instance and key order.
   */
  function FlatLeaves(o: Override): seq<Override>
    decreases o, 2
  {
    if o.Mapped? then FlatInstances(o, 0) else [o]
  }

  function FlatInstances(o: Override, i: nat): seq<Override>
    requires o.Mapped? && i <= |o.instances|
    decreases o, 1, |o.instances| - i
  {
    if i == |o.instances| then [] else FlatEntries(o.instances[i], 0) + FlatInstances(o, i + 1)
  }

  function FlatEntries(inst: Instance, j: nat): seq<Override>
    requires j <= |inst.entries|
    decreases inst, 0, |inst.entries| - j
  {
    if j == |inst.entries| then [] else FlatLeaves(inst.entries[j]) + FlatEntries(inst, j + 1)
  }

  /** The names of `es`, in order (`_override_name` of each). */
  function NamesOf(es: seq<Override>): (r: seq<string>)
    ensures |r| == |es| && forall k :: 0 <= k < |es| ==> r[k] == es[k].Name()
  {
    if |es| == 0 then [] else [es[0].Name()] + NamesOf(es[1..])
  }

  /** The `result` key of each override's content, in order (`[s.result for s in ...]`). */
  function ResultsOf(es: seq<Override>): (r: seq<Option<Value>>)
    ensures |r| == |es| && forall k :: 0 <= k < |es| ==> r[k] == Field(Content(es[k]), "result")
  {
    if |es| == 0 then [] else [Field(Content(es[0]), "result")] + ResultsOf(es[1..])
  }

  /** A mapped override whose members are not mapped flattens to its members. */
  lemma {:induction false} FlatLeavesOfPlainMembers(o: Override)
    requires o.Mapped?
    requires forall i, j :: 0 <= i < |o.instances| && 0 <= j < |o.instances[i].entries| ==> !o.instances[i].entries[j].Mapped?
    ensures FlatLeaves(o) == Members(o)
  {
    FlatInstancesFrom(o, 0);
  }

  lemma {:induction false} FlatInstancesFrom(o: Override, i: nat)
    requires o.Mapped? && i <= |o.instances|
    requires forall i, j :: 0 <= i < |o.instances| && 0 <= j < |o.instances[i].entries| ==> !o.instances[i].entries[j].Mapped?
    ensures FlatInstances(o, i) == Flatten(o.instances[i..])
    decreases |o.instances| - i
  {
    if i < |o.instances| {
      FlatInstancesFrom(o, i + 1);
      FlatEntriesFrom(o.instances[i], 0);
      assert o.instances[i..][1..] == o.instances[i + 1..];
      assert o.instances[i].entries[0..] == o.instances[i].entries;
    }
  }

  lemma {:induction false} FlatEntriesFrom(inst: Instance, j: nat)
    requires j <= |inst.entries|
    requires forall k :: 0 <= k < |inst.entries| ==> !inst.entries[k].Mapped?
    ensures FlatEntries(inst, j) == inst.entries[j..]
    decreases |inst.entries| - j
  {
    if j < |inst.entries| {
      FlatEntriesFrom(inst, j + 1);
      assert inst.entries[j..] == [inst.entries[j]] + inst.entries[j + 1..];
    }
  }

  /** A mapped override's members are not mapped themselves. */
  predicate PlainMembers(e: Override)
  {
    e.Mapped? ==> forall i, j :: 0 <= i < |e.instances| && 0 <= j < |e.instances[i].entries| ==>
      !e.instances[i].entries[j].Mapped?
  }

  /** Nesting at most two deep: the members of every mapped member are not mapped. */
  predicate Shallow(o: Override)
  {
    o.Mapped? &&
    forall i, j :: 0 <= i < |o.instances| && 0 <= j < |o.instances[i].entries| ==>
      PlainMembers(o.instances[i].entries[j])
  }

  /**
   * A leaf-style family's logical groups hold only bare names: every override
   * typed by `refs` nests at most two deep.
   */
  lemma RefsAreShallow(o: Override)
    requires o.Mapped? && Conforms(o, Refs)
    ensures Shallow(o)
  {
    forall i, j | 0 <= i < |o.instances| && 0 <= j < |o.instances[i].entries| && o.instances[i].entries[j].Mapped?
      ensures PlainMembers(o.instances[i].entries[j])
    {
      var e := o.instances[i].entries[j];
      assert MemberConforms(e, Refs.members);
      var k := ResolveIndex(Refs.members, e.alias).value;
      assert Refs.members[k] == RefsLogicalOpt;
      assert Conforms(e, RefsLogicalOpt);
      forall i', j' | 0 <= i' < |e.instances| && 0 <= j' < |e.instances[i'].entries|
        ensures !e.instances[i'].entries[j'].Mapped?
      {
        assert MemberConforms(e.instances[i'].entries[j'], RefsLogicalOpt.members);
      }
    }
  }

  /**
   * The step a client takes on one item of an instance
   * (tests/unit/test_ystruct.py:329-337, :356-367): a mapped item's members,
   * gathered instance by instance; any other item itself.
   */
  method ItemLeaves(item: Override) returns (leaves: seq<Override>)
    requires PlainMembers(item)
    ensures leaves == FlatLeaves(item)
  {
    if item.Mapped? {
      leaves := [];
      var i := 0;
      while i < |item.instances|
        invariant 0 <= i <= |item.instances|
        invariant leaves == Flatten(item.instances[..i])
      {
        FlattenAppend(item.instances[..i], [item.instances[i]]);
        FlattenOne(item.instances[i]);
        assert item.instances[..i + 1] == item.instances[..i] + [item.instances[i]];
        leaves := leaves + item.instances[i].entries;
        i := i + 1;
      }
      assert item.instances[..i] == item.instances;
      FlatLeavesOfPlainMembers(item);
    } else {
      leaves := [item];
    }
  }

  /**
   * Walking a mapped override the way a client does: for every item of every
   * instance, a mapped item contributes its members and any other item
   * itself.
   */
  method GatherLeaves(o: Override) returns (leaves: seq<Override>)
    requires Shallow(o)
    ensures leaves == FlatLeaves(o)
  {
    leaves := [];
    var i := 0;
    while i < |o.instances|
      invariant 0 <= i <= |o.instances|
      invariant leaves + FlatInstances(o, i) == FlatLeaves(o)
    {
      var step := InstanceLeaves(o.instances[i]);
      ghost var rest := FlatInstances(o, i + 1);
      assert FlatInstances(o, i) == step + rest;
      assert leaves + (step + rest) == (leaves + step) + rest;
      leaves := leaves + step;
      i := i + 1;
    }
  }

  /** The items of one instance, walked in key order. */
  method InstanceLeaves(inst: Instance) returns (leaves: seq<Override>)
    requires forall j :: 0 <= j < |inst.entries| ==> PlainMembers(inst.entries[j])
    ensures leaves == FlatEntries(inst, 0)
  {
    leaves := [];
    var j := 0;
    while j < |inst.entries|
      invariant 0 <= j <= |inst.entries|
      invariant leaves + FlatEntries(inst, j) == FlatEntries(inst, 0)
    {
      var step := ItemLeaves(inst.entries[j]);
      ghost var rest := FlatEntries(inst, j + 1);
      assert leaves + (step + rest) == (leaves + step) + rest;
      leaves := leaves + step;
      j := j + 1;
    }
  }
}
