/**
 * Override handlers and the registry that maps a reserved key to the handler
 * recognising it, with the handler declarations of tests/unit/test_ystruct.py
 * as concrete registry data.
 */
module Registry {
  import opened Wrappers

  /**
   * A handler type: its class name, the key spellings it recognises
   * (`_override_keys`), whether it is a mapped handler and, if so, its member
   * handler types (`_override_mapped_member_types`). A mapped handler with no
   * member types is a leaf-style family whose entries are bare names.
   */
  datatype Handler = Handler(cls: string, aliases: seq<string>, mapped: bool, members: seq<Handler>)

  /**
   * The position of the handler that recognises `key`; when several handlers
   * claim it the first registered one wins.
   */
  function ResolveIndex(reg: seq<Handler>, key: string): (r: Option<nat>)
    ensures r.None? <==> forall i :: 0 <= i < |reg| ==> key !in reg[i].aliases
    ensures r.Some? ==> r.value < |reg| && key in reg[r.value].aliases
    ensures r.Some? ==> forall j :: 0 <= j < r.value ==> key !in reg[j].aliases
  {
    if |reg| == 0 then None
    else if key in reg[0].aliases then Some(0)
    else
      assert forall k :: 1 <= k < |reg| ==> reg[k] == reg[1..][k - 1];
      match ResolveIndex(reg[1..], key)
      case None => None
      case Some(i) => Some(i + 1)
  }

  /** The lookup tries the first handler, then the rest of the registry. */
  lemma IndexCons(h: Handler, rest: seq<Handler>, key: string)
    ensures ResolveIndex([h] + rest, key) ==
      if key in h.aliases then Some(0)
      else match ResolveIndex(rest, key) case None => None case Some(i) => Some(i + 1)
  {
    assert ([h] + rest)[0] == h && ([h] + rest)[1..] == rest;
  }

  /** Over a three-handler registry the lookup tries the handlers in order. */
  lemma IndexOfThree(a: Handler, b: Handler, c: Handler, key: string)
    ensures ResolveIndex([a, b, c], key) ==
      if key in a.aliases then Some(0) else if key in b.aliases then Some(1) else if key in c.aliases then Some(2) else None
  {
    IndexCons(c, [], key);
    assert [c] + [] == [c];
    IndexCons(b, [c], key);
    assert [b] + [c] == [b, c];
    IndexCons(a, [b, c], key);
    assert [a] + [b, c] == [a, b, c];
  }

  /** Over a two-handler registry the lookups try the handlers in order. */
  lemma IndexOfTwo(a: Handler, b: Handler, key: string)
    ensures ResolveIndex([a, b], key) ==
      if key in a.aliases then Some(0) else if key in b.aliases then Some(1) else None
    ensures FamilyIndex([a, b], key) ==
      if Reaches(a, key) then Some(0) else if Reaches(b, key) then Some(1) else None
  {
    assert [a, b][1..] == [b] && [b][1..] == [];
  }

  /** The first alias of a handler names the override it yields implicitly. */
  function PrimaryAlias(h: Handler): string
    requires |h.aliases| > 0
  {
    h.aliases[0]
  }

  /** A registered mapped family that can be reached through its members' keys. */
  predicate Family(h: Handler)
  {
    h.mapped && |h.aliases| > 0
  }

  /** `key` reaches the registered family `h` through one of its member types. */
  predicate Reaches(h: Handler, key: string)
  {
    Family(h) && ResolveIndex(h.members, key).Some?
  }

  /**
   * The first registered mapped family one of whose member types recognises
   * `key`: such a key in a section yields that family's override.
   */
  function FamilyIndex(reg: seq<Handler>, key: string): (r: Option<nat>)
    ensures r.None? <==> forall i :: 0 <= i < |reg| ==> !Reaches(reg[i], key)
    ensures r.Some? ==> r.value < |reg| && Reaches(reg[r.value], key)
    ensures r.Some? ==> forall j :: 0 <= j < r.value ==> !Reaches(reg[j], key)
  {
    if |reg| == 0 then None
    else if Reaches(reg[0], key) then Some(0)
    else
      var t := FamilyIndex(reg[1..], key);
      FirstShift(reg, h => Reaches(h, key), t);
      match t
      case None => None
      case Some(i) => Some(i + 1)
  }

  /** Finding the first element satisfying `p` after a head that fails it: the position shifts by one. */
  lemma FirstShift(s: seq<Handler>, p: Handler -> bool, t: Option<nat>)
    requires |s| > 0 && !p(s[0])
    requires t.None? <==> forall i :: 0 <= i < |s| - 1 ==> !p(s[1..][i])
    requires t.Some? ==> t.value < |s| - 1 && p(s[1..][t.value])
    requires t.Some? ==> forall j :: 0 <= j < t.value ==> !p(s[1..][j])
    ensures var r := if t.None? then None else Some(t.value + 1);
      (r.None? <==> forall i :: 0 <= i < |s| ==> !p(s[i])) &&
      (r.Some? ==> r.value < |s| && p(s[r.value])) &&
      (r.Some? ==> forall j :: 0 <= j < r.value ==> !p(s[j]))
  {
    assert forall k :: 1 <= k < |s| ==> s[k] == s[1..][k - 1];
  }

  // The handler declarations of the test module.

  const Input := Handler("StructRInput", ["input"], false, [])
  const Message := Handler("StructRMessage", ["message", "message-alt"], false, [])
  const Meta := Handler("StructRMeta", ["meta"], false, [])
  const Settings := Handler("StructRSettings", ["settings"], false, [])
  const Action := Handler("StructRAction", ["action", "altaction"], false, [])
  const Raws := Handler("StructRRaws", ["raws"], false, [])

  /** StructRMappedGroupBase's member types. */
  const GroupBaseMembers := [Settings, Action]
  const GroupLogicalOpt := Handler("StructRMappedGroupLogicalOpt", ["and", "or", "not"], true, GroupBaseMembers)
  const Group := Handler("StructRMappedGroup", ["group"], true, GroupBaseMembers + [GroupLogicalOpt])

  /** StructRMappedRefsBase has no member types. */
  const RefsBaseMembers: seq<Handler> := []
  const RefsLogicalOpt := Handler("StructRMappedRefsLogicalOpt", ["and", "or", "not"], true, RefsBaseMembers)
  const Refs := Handler("StructRMappedRefs", ["refs"], true, RefsBaseMembers + [RefsLogicalOpt])

  /** The member types of `group`, base members first. */
  lemma GroupMembersAre()
    ensures Group.members == [Settings, Action, GroupLogicalOpt]
  {
  }

  /** Which member type of `group` recognises `key`, if any. */
  lemma GroupMemberIndex(key: string)
    ensures ResolveIndex(Group.members, key) ==
      if key == "settings" then Some(0) else if key in ["and", "or", "not"] then Some(2)
      else if key in ["action", "altaction"] then Some(1) else None
  {
    GroupMembersAre();
    IndexOfThree(Settings, Action, GroupLogicalOpt, key);
  }
}
