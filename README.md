# structr override-resolution tree builder, in Dafny

This project models the core of the `structr` module of propertree as its
unit tests (`tests/unit/test_ystruct.py`) use it. The core is the builder
that turns a parsed YAML document into a tree of sections:

- Each key of a mapping is either recognised by a registered override
  handler, or names a child section, or reaches a mapped family through
  one of its member types.
- A recognised key yields an override. A mapped override (a "group") is
  normalised into instances, and each key of an instance is resolved
  against the member types of its handler. The logical operators `and`,
  `or` and `not` are mapped handlers with their own member lists. A
  family with no member types turns bare strings into terminals.
- Every node's path is its parent's path, a dot and its name.
- `leaf_sections` walks the leaves depth first in document order.
- Attribute access reads a hyphenated alias with an underscore
  (`message-alt` as `message_alt`). On a group it collects a member
  across instances. When nothing matches it gives None.
- The root object builds the tree and holds the one context its nodes
  share. When asked to, it runs the pre hook before the build and the post
  hook after a build that succeeded.

Modules:

- `Document` (document.dfy): the loaded document (ordered mappings,
  lists, scalars).
- `Registry` (registry.dfy): handlers, alias resolution, and the handler
  declarations of the test module as constants.
- `Paths` (paths.dfy): dotted paths and the attribute spelling of an
  alias.
- `Overrides` (overrides.dfy): resolution and normalisation of overrides.
- `Sections` (sections.dfy): the recursive section builder,
  `leaf_sections` and attribute access on a section.
- `OverrideAccess` (access.dfy): attribute access on groups, `all`, and
  the client walks over instances.
- `ContextCarrier` (context.dfy): the shared context, a class with a
  mutable store.
- `TreeBuilder` (builder.dfy): the root object, a class holding the build
  result, the context and the hook trace.
- `SectionShapes` (section_shapes.dfy): the documents the builder
  accepts, and the proof that a build succeeds on exactly those.
- `Seqs` (seqs.dfy): generic sequence facts (filtering by a predicate,
  prepending to pointwise related sequences) that the builder lemmas use.
- `BuildSteps` (steps.dfy): small unfolding lemmas about the builder.
- The `scenario_*.dfy` files: one module per unit test, stating on
  concrete documents what that test asserts.

## Model

| member | source | states |
|---|---|---|
| Document.Lookup | tests/unit/test_ystruct.py:462-476 | The value under a key is the first entry with that key. It is None exactly when no entry has the key. |
| Registry.ResolveIndex | tests/unit/test_ystruct.py:33-141 | The handler recognising a key is the first registered one listing it. The result is None exactly when no handler lists it. |
| Registry.FamilyIndex | tests/unit/test_ystruct.py:80-114 | The first registered mapped family one of whose member types recognises a key. The result is None exactly when no family does. |
| Paths.Dot | tests/unit/test_ystruct.py:396-433 | A child path is the parent path, then a dot, then the child's name, and nothing else. |
| Paths.AttrName | tests/unit/test_ystruct.py:38-42 | The attribute spelling of an alias turns each hyphen into an underscore and keeps every other character where it was, so it has the alias's length and no hyphen. |
| Paths.PlainAttr | tests/unit/test_ystruct.py:38-42 | An alias without a hyphen is read under its own spelling. |
| Overrides.Slots | tests/unit/test_ystruct.py:312-370 | The slots a piece of content contributes to an instance: one per key of a mapping, in key order, each with its value; the string itself for a string; nothing for anything else. |
| Overrides.ResolveWith | tests/unit/test_ystruct.py:27-47 | A plain handler always succeeds, with a plain override. |
| Overrides.ResolveWithOk | tests/unit/test_ystruct.py:27-141 | A success is never a terminal. It has the handler's class, the alias used, the given path and the raw content, and is mapped exactly when the handler is. A mapped success has one instance per normalised instance of the content. Instance k holds one entry per slot of that instance, in order. A key that a member type recognises gives that member's resolution of the key's value, at the path plus the key. Any other key, and a bare string, gives a terminal named by it at the path plus its name. |
| Overrides.ResolvedTyped | tests/unit/test_ystruct.py:27-141 | A resolved override has every nested override at its parent's path plus its name. Every entry is a terminal or is typed by the first member type recognising its key. |
| Overrides.ResolveMapped | tests/unit/test_ystruct.py:250-339 | A string gives one instance. A value that is not a mapping, string or list is Malformed. |
| Overrides.ResolveMappedOk | tests/unit/test_ystruct.py:250-370 | A successful mapped resolution has the instances the normalisation rule gives. A mapping or a string gives one instance. A collapsing list gives one instance holding its items' slots in list order. Any other list gives one instance per item, instance k built from item k. Each entry is built as `ResolveWithOk` states. |
| Overrides.ResolveWithShaped | tests/unit/test_ystruct.py:27-141 | Resolution succeeds exactly when the content is one the handler accepts (`Shaped`). A plain handler accepts anything. A mapped handler accepts a mapping whose recognised keys hold content their member types accept, a bare string, or a list of such mappings and strings. Every other content fails. |
| Overrides.ResolveMappedShaped | tests/unit/test_ystruct.py:250-370 | A mapped resolution succeeds exactly when its content is a mapping, string or list the type accepts (`ContentShaped`). A null, a boolean or a number always fails. |
| Overrides.ResolveEntries | tests/unit/test_ystruct.py:312-339 | An instance has exactly one entry per remaining key. |
| Overrides.ResolveEntriesOk | tests/unit/test_ystruct.py:312-339 | The entries of a mapping from a position on are built from its remaining keys, one per key, in key order. Each is named by its key and sits at the path plus the key. A recognised key's entry is that member type's resolution of the key's value. |
| Overrides.ResolveEntriesShaped | tests/unit/test_ystruct.py:312-339 | The keys of a mapping from a position on resolve exactly when each remaining key is accepted (`EntryShaped`). |
| Overrides.ResolveEntryShaped | tests/unit/test_ystruct.py:312-339 | One key resolves exactly when no member type recognises it, or the first member type that does accepts its value. |
| Overrides.ResolveEntry | tests/unit/test_ystruct.py:117-141 | A key no member type recognises becomes a terminal named by the key, at the path plus the key. |
| Overrides.ResolveEntryOk | tests/unit/test_ystruct.py:117-141 | A key is a terminal exactly when no member type recognises it. Either way the entry is named by the key and sits at the path plus the key. A non-terminal entry carries the key's value as its raw content and is that member type's resolution of it. |
| Overrides.ItemEntries | tests/unit/test_ystruct.py:341-370 | A list item that is neither a mapping nor a string is Malformed. A collapsible item contributes exactly one entry. |
| Overrides.ItemEntriesOk | tests/unit/test_ystruct.py:341-370 | The entries a list item contributes are built from its slots: a mapping's keys in key order, or the string itself. |
| Overrides.ItemEntriesShaped | tests/unit/test_ystruct.py:341-370 | A list item contributes entries exactly when it is a bare string or a mapping the type accepts. |
| Overrides.CollapsedOk | tests/unit/test_ystruct.py:250-266 | The merged entries of a collapsing list are built from the items' slots, concatenated in list order. |
| Overrides.CollapsedShaped | tests/unit/test_ystruct.py:250-266 | A collapsing list resolves from an item on exactly when each of those items is accepted. |
| Overrides.EachItem | tests/unit/test_ystruct.py:341-370 | A non-collapsing list gives exactly one instance per item. |
| Overrides.EachItemOk | tests/unit/test_ystruct.py:341-370 | A non-collapsing list gives one instance per remaining item, and instance k is built from the slots of item k. |
| Overrides.EachItemShaped | tests/unit/test_ystruct.py:341-370 | Any other list resolves from an item on exactly when each of those items is accepted. |
| Sections.ClassifyExact | tests/unit/test_ystruct.py:146-186 | A key is an override key exactly when a handler recognises it, and then names the first such handler. It is a member key exactly when no handler recognises it and a registered family does, and then names the first such family, which reaches the key. It is a child key exactly when neither holds and its value is a mapping, and ignored exactly when neither holds and its value is not a mapping. |
| Sections.ChildEntries | tests/unit/test_ystruct.py:396-433 | Only keys of the content that name child sections are recursed into. |
| Sections.OverrideEntries | tests/unit/test_ystruct.py:146-186 | Only keys of the content that a handler recognises yield explicit overrides. |
| Sections.BuildSectionOk | tests/unit/test_ystruct.py:396-433 | A built section has the name, path, parent, root name and content it was built for, and satisfies the tree invariant. Its children are exactly the sections of its child keys, in document order. Each is named and filled by its key, sits at the path plus its name, has this parent and the same root, and satisfies the invariant in turn. Its overrides are exactly the explicit ones of its recognised keys, in document order, followed by one implicit override per family its member keys reach, in registry order. |
| Sections.SectionOkMeans | tests/unit/test_ystruct.py:146-186 | Under the tree invariant every key is consumed as its class says: a child section, an override under that key with its value, or part of its family's implicit override. Every override sits at the path plus its alias and is typed by a handler claiming that alias. |
| Sections.BuildChildrenOk | tests/unit/test_ystruct.py:396-433 | One child per child key, in document order. Each child is named and filled by its key, sits at the parent's path plus its name, and satisfies the tree invariant. |
| Sections.ExplicitOverridesOk | tests/unit/test_ystruct.py:146-186 | One override per recognised key, in document order. Each is what the recognising handler yields for that key's value, under the spelling used. |
| Sections.ImplicitOverridesOk | tests/unit/test_ystruct.py:396-433 | One override per family that some member keys reach, in registry order. Each sits under the family's first alias and holds exactly those keys. |
| Sections.ImplicitFamiliesExact | tests/unit/test_ystruct.py:396-433 | A family is listed if and only if some key reaches it through a member type. |
| Sections.AllKeysConsumed | tests/unit/test_ystruct.py:146-186 | Every key of the content ends up as a child section, an override under that key, or part of its family's implicit override. |
| Sections.ChildEntriesComplete | tests/unit/test_ystruct.py:396-433 | Every child key is among the keys the builder recurses into. |
| Sections.OverrideEntriesComplete | tests/unit/test_ystruct.py:146-186 | Every recognised key is among the keys that yield overrides. |
| Sections.LooseEntriesComplete | tests/unit/test_ystruct.py:396-433 | Every member key is gathered into its family's implicit override. |
| Sections.LooseEntriesSound | tests/unit/test_ystruct.py:396-433 | Only member keys of that family are gathered into its implicit override. |
| Sections.Build | tests/unit/test_ystruct.py:146-193 | A document that is not a mapping is refused. |
| Sections.BuildOk | tests/unit/test_ystruct.py:146-193 | A built root has the tree's name as name and path, no parent and the whole document as content, and satisfies the tree invariant `BuildSectionOk` states. |
| SectionShapes.BuildShaped | tests/unit/test_ystruct.py:146-193 | A tree builds exactly when the document is a mapping the builder accepts (`SectionShaped`). Each recognised key holds content its handler accepts. Each member key holds content the member type reaching it accepts. Each child key holds an accepted section. Ignored keys impose nothing. |
| SectionShapes.BuildSectionShaped | tests/unit/test_ystruct.py:396-433 | A section builds exactly when its content is accepted: its child sections, its recognised keys and its member keys. |
| SectionShapes.BuildChildrenShaped | tests/unit/test_ystruct.py:396-433 | The children of the keys from a position on build exactly when each child key among them holds an accepted section. |
| SectionShapes.ExplicitResolves | tests/unit/test_ystruct.py:146-186 | The overrides of the recognised keys from a position on resolve exactly when each handler accepts its key's content. |
| SectionShapes.ImplicitResolves | tests/unit/test_ystruct.py:396-433 | The implicit overrides of the families from a position on resolve exactly when each family accepts the mapping of the member keys reaching it. |
| SectionShapes.MembersFamilies | tests/unit/test_ystruct.py:396-433 | Member keys are accepted one by one exactly when every family accepts the mapping of the member keys reaching it. |
| Sections.LeafSectionsExact | tests/unit/test_ystruct.py:396-433 | `leaf_sections` yields exactly the leaves reachable from the root: a section is yielded if and only if it is a leaf below the root. |
| Sections.UnderRoot | tests/unit/test_ystruct.py:396-433 | Every section below a built section satisfies the invariant, carries the same root name, and has a path starting with the section's path and a dot. |
| Sections.FirstNamed | tests/unit/test_ystruct.py:146-186 | The position of the first override read under an attribute. It is None exactly when none is. |
| Sections.Get | tests/unit/test_ystruct.py:146-186 | Attribute access on a section gives an override of the section read under that attribute. It is None exactly when there is none (`message_alt` on a leaf without it). |
| Sections.ContentReadsBack | tests/unit/test_ystruct.py:462-476 | On a built section, the attribute of a recognised key is the override of that key, and its content is the value that followed the key's first occurrence. This holds when no other recognised key of the section shares the key's attribute spelling. |
| OverrideAccess.Members | tests/unit/test_ystruct.py:341-433 | `members` holds exactly the entries of all instances of a mapped override, and is empty for anything else. |
| OverrideAccess.FlattenAppend | tests/unit/test_ystruct.py:341-433 | The members of several instances are the entries of the first instances followed by those of the later ones, with nothing dropped or reordered. |
| OverrideAccess.FlattenOne | tests/unit/test_ystruct.py:341-433 | The members of one instance are its entries, in key order. |
| OverrideAccess.Named | tests/unit/test_ystruct.py:250-266 | Keeps exactly the overrides read under the attribute, never more than there were. |
| OverrideAccess.NamedAppend | tests/unit/test_ystruct.py:250-266 | Selecting by attribute keeps order: the selection from a prefix comes before that from the rest. |
| OverrideAccess.NamedCounts | tests/unit/test_ystruct.py:250-266 | Selecting by attribute keeps each override read under it as often as it occurs, and drops every other override. |
| OverrideAccess.Collect | tests/unit/test_ystruct.py:250-310 | Collecting a member across instances yields exactly the members of those instances read under that attribute. |
| OverrideAccess.CollectAppend | tests/unit/test_ystruct.py:250-310 | Collecting over several overrides yields what the first ones yield, followed by what the later ones yield. |
| OverrideAccess.CollectOne | tests/unit/test_ystruct.py:250-310 | Collecting over one override yields its members read under the attribute, in instance and key order. |
| OverrideAccess.Get | tests/unit/test_ystruct.py:195-310 | Attribute access on a group is None exactly when no instance defines the member. Otherwise the result is what `Collect` gathers: non-empty, holding exactly those members. |
| OverrideAccess.All | tests/unit/test_ystruct.py:86-95 | `all` has a key `settings` or `action` exactly when that member is present, mapped to the first such member's content, and no other key. |
| OverrideAccess.NamesOf | tests/unit/test_ystruct.py:341-370 | The names of a sequence of overrides, position by position. |
| OverrideAccess.ResultsOf | tests/unit/test_ystruct.py:250-339 | The `result` field of each override's content, position by position. |
| OverrideAccess.FlatLeavesOfPlainMembers | tests/unit/test_ystruct.py:312-339 | Walking a group whose members are not mapped reaches exactly its members, in order. |
| OverrideAccess.RefsAreShallow | tests/unit/test_ystruct.py:117-141 | Any override typed by the refs family nests at most two deep: its logical operators hold only terminals. |
| OverrideAccess.ItemLeaves | tests/unit/test_ystruct.py:329-337 | The inner loop over one item reaches exactly that item's leaves, in order. |
| OverrideAccess.InstanceLeaves | tests/unit/test_ystruct.py:356-367 | The loop over the items of one instance reaches exactly the leaves of those items, in key order. |
| OverrideAccess.GatherLeaves | tests/unit/test_ystruct.py:351-367 | The nested client loop over instances and items reaches exactly the group's leaves, in order. |
| ContextCarrier.Context.Get | tests/unit/test_ystruct.py:450-451 | `get` returns the stored value. It returns None exactly when the key was never set or was set to null. |
| ContextCarrier.Stored | tests/unit/test_ystruct.py:450-451 | What `get` returns on a store: None when the key is missing or holds null, otherwise the stored value. |
| ContextCarrier.Context.Set | tests/unit/test_ystruct.py:447-448 | `set` stores the value under the key and leaves every other key as it was. |
| TreeBuilder.LifecycleHooks | tests/unit/test_ystruct.py:372-394 | Without hooks neither hook fires. With hooks the pre hook fires exactly once, first. The build is recorded once if it succeeds and not at all if it fails. The post hook fires exactly once, last, after a successful build with hooks, and never otherwise. |
| TreeBuilder.Count | tests/unit/test_ystruct.py:372-394 | A count of events is zero exactly when the event does not occur. |
| TreeBuilder.SectionTree.constructor | tests/unit/test_ystruct.py:372-394 | The tree holds the build of the document and a fresh, empty context. Its trace is the hook lifecycle of a build that succeeded exactly when the build did. |
| TreeBuilder.SectionTree.WithContext | tests/unit/test_ystruct.py:435-460 | The tree holds the build and the caller's own context object. Its trace is the hook lifecycle of a build that succeeded exactly when the build did. |
| TreeBuilder.SectionTree.ContextRoundTrips | tests/unit/test_ystruct.py:452-460 | One get/set/get per group member of every leaf. Every second get sees the value as a read returns it. Only the very first get can see the old content, because the context is shared. The store ends as the old one with the key set. |
| TreeBuilder.RecordedStep | tests/unit/test_ystruct.py:452-460 | One more get/set/get round keeps the shared-context record. |
| EmptyScenario.EmptyScenarioHolds | tests/unit/test_ystruct.py:189-193 | An empty document builds to a root with no children and no overrides, and there are no leaves. |
| RawsScenario.RawsScenarioHolds | tests/unit/test_ystruct.py:462-476 | The root holding only `raws` is the one leaf. `red` reads "meat", `bits` 8, `bytes` 1 and `stringbits` the string "8". |
| MessageScenario.MessageScenarioHolds | tests/unit/test_ystruct.py:146-186 | `message` and `message-alt` in one section give two overrides, the second read as `message_alt`. A section without `message-alt` has no `message_alt`. |
| MappingScenario.MappingScenarioHolds | tests/unit/test_ystruct.py:195-222 | Each group has one instance and its members read back their content. item3 has its message and no `action` in its group. |
| MappingScenario.AltActionResolves | tests/unit/test_ystruct.py:246 | `altaction` in a group resolves through the action type and records its own spelling. |
| MappingScenario.AllOfItem1 | tests/unit/test_ystruct.py:206-208 | `all` of a group with both members maps `settings` and `action` to their content. |
| MappingScenario.AllOfItem3 | tests/unit/test_ystruct.py:220-222 | `all` of a group with only `settings` holds only `settings`. |
| ListScenario.SettingsPairResolves | tests/unit/test_ystruct.py:250-266 | A two-item list of `settings`-only mappings collapses into one instance holding both members in list order. |
| ListScenario.ListScenarioHolds | tests/unit/test_ystruct.py:250-266 | item1 is the only leaf. Its group has one instance, and `group.settings` collects two members whose results are true, then false. |
| LogicalScenarios.AndScenarioHolds | tests/unit/test_ystruct.py:268-284 | The document builds to a root whose one leaf holds the group. The group has one instance. `and.settings` collects two members whose results are true, then false. |
| LogicalScenarios.BothScenarioHolds | tests/unit/test_ystruct.py:287-310 | The document builds to a root whose one leaf holds the group. With `or` and `and` side by side, `and.settings` has one member (false) and `or.settings` two (true, false). |
| LogicalScenarios.MixedScenarioHolds | tests/unit/test_ystruct.py:312-339 | The document builds to a root whose one leaf holds the group. A list mixing an `or` item and a `settings` item collapses into one instance. `or` has one instance and one `settings`, and walking the group reaches results {true, false}. |
| LogicalScenarios.MixedResults | tests/unit/test_ystruct.py:312-339 | The client loop collects the results true and false, in some order. |
| RefsScenario.RefsResolve | tests/unit/test_ystruct.py:341-370 | A list whose first item has two keys does not collapse: one instance per item. |
| RefsScenario.RefsScenarioHolds | tests/unit/test_ystruct.py:341-370 | The document builds to a root whose one leaf holds `refs`. Every item is named `and`, `or` or `ref4`. `or` and `and` have one instance each. Walking reaches ref1 to ref4 in order. |
| RefsScenario.RefsNames | tests/unit/test_ystruct.py:351-370 | The client loop collects the names ref1, ref2, ref3 and ref4. |
| PathsScenario.ResolvedPaths | tests/unit/test_ystruct.py:415-420 | The client loop records, leaf by leaf, the leaf's path, its group's path and each group member's path. |
| PathsScenario.LeafRow | tests/unit/test_ystruct.py:417-420 | The inner loop records one leaf's path, then its group's path, then each group member's path in member order. |
| PathsScenario.PathsScenarioHolds | tests/unit/test_ystruct.py:396-433 | The tree builds. Its leaves are leaf1, leaf2, leaf3, depth first, and every leaf has a group. The record is the ten expected paths, in order. |
| PathsScenario.ResolvePathsTest | tests/unit/test_ystruct.py:396-433 | Building and walking the test document records exactly the expected ten paths. |
| LifecycleScenarios.HooksTest | tests/unit/test_ystruct.py:372-394 | Built without hooks, neither hook fires. Built with them, each fires once. Either way the document is built once. |
| LifecycleScenarios.HookDocBuilds | tests/unit/test_ystruct.py:375-383 | The hooks test's document builds: a root holding `myroot`, which holds both leaves. |
| LifecycleScenarios.ContextTest | tests/unit/test_ystruct.py:435-460 | The first `get("k1")` finds nothing, and the `get` after `set` finds "notk2". The caller's own handler object sees the value set through the tree. |

## Left out

- YAML parsing and file loading: the document is given as a `Value`. The
  tests that read the repository's `checks.yaml` and `checks2.yaml`
  depend on files that are not part of this model. Their visible
  assertions are restated on small documents of the same shape
  (`MessageScenario`, `MappingScenario`). Their unseen content is not
  modelled: the `default message` fallback, `meta` on every leaf, `input`,
  the `settings` sub-keys, and item5 with three instances.
- The `structr` module itself is not part of this model. Its behaviour is
  modelled as the tests pin it down. Where the tests are silent, these
  are modelling choices:
  - an unrecognised key with a scalar value is ignored;
  - when two handlers claim one alias, the first registered wins;
  - duplicate keys in a mapping are kept in order, and lookups take the
    first;
  - `all` takes the content of the first `settings` and the first
    `action` member when a group has several instances;
  - a key inside an instance that no member type of the handler
    recognises becomes a terminal named by the key, at the path plus the
    key;
  - the hooks fire once per build of the root object, not once per
    section. The hooks test at :372-394 only checks that each patched hook
    was or was not called at all;
  - the builder's failure modes, none of which the tests exercise, each
    abort the whole build: a mapped override whose value is neither a
    mapping, a string nor a list is `Malformed`; a list item of such an
    override that is neither a mapping nor a string is `Malformed`; a
    document that is not a mapping is `NotAMapping`. `BuildShaped` states
    which documents build, so these are the only failures.
- Normalisation is a modelling choice. A non-empty list whose items are
  all strings or single-key mappings collapses into one instance. Any
  other list gives one instance per item, so the empty list gives none.
  The tests fix only that three particular lists collapse: the two-item
  `group` list at :253-266 (`len(group) == 1`), the mixed list
  `group: [{or: …}, {settings: …}]` at :312-339 (`len(leaf.group) == 1`
  at :325), and `and: [ref2, ref3]` at :341-370 (`len(and) == 1`). The
  criterion that decides the other lists is not pinned down by them.
- An explicit family key beside loose member keys of the same family
  (`{group: {settings: 1}, action: go}` under the `group` registry) gives
  two overrides under the family's alias: the explicit one first, then
  the implicit one. Attribute access on the section reads the explicit
  one, so the loose keys cannot be reached through it. The tests never
  combine the two, and how `structr` merges them is not part of this
  model.
- Logical operators resolve their keys against their own declared member
  list (`StructRMappedGroupLogicalOpt` at :98-102,
  `StructRMappedRefsLogicalOpt` at :125-129). They do not inherit the
  enclosing family's list, so a logical operator cannot nest inside
  itself in this test module.
- A leaf is a section with content and no child sections. An empty
  document yields no leaf: `test_empty_struct` at :189-193 only holds if
  the empty root is not a leaf.
- Hooks are no-ops whose calls are recorded in a trace. A build that
  fails records only the pre hook. `unittest.mock` patching and a hook
  that fails are not modelled.
- The shared context is a field of the root object rather than of every
  section and override, so identity sharing holds by construction. The
  per-node `context` accessor is not modelled separately.
- Python reflection is not modelled: `getattr`, `__str__`, `a_property`,
  `len()` on handles and iteration protocols. Attribute access is a keyed
  lookup returning `Option`, and `str(message)` is `Content`.
- PathsScenario.ResolvedPaths: requires that every leaf has a `group`;
  the Python loop would raise on a leaf without one.
- TreeBuilder.SectionTree.ContextRoundTrips: requires that every leaf has
  a `group`, for the same reason.
