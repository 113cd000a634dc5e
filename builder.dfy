/**
 * The root object a client constructs: it builds the whole tree from a
 * document, carries the one shared context every node hands out, and runs
 * the pre and post hooks around the build when asked to
 * (tests/unit/test_ystruct.py:372-394, :435-460).
 */
module TreeBuilder {
  import opened Wrappers
  import opened Document
  import opened Registry
  import opened Overrides
  import opened OverrideAccess
  import opened Sections
  import opened ContextCarrier

  /** What a top-level build does, as an observer of its hooks sees it. */
  datatype Event = PreHook | Built | PostHook

  /**
   * The events of one top-level build: the pre hook opens it when
   * `runHooks` is set; a build that `completed` is recorded, followed by
   * the post hook when `runHooks` is set. A build that fails stops after
   * the pre hook.
   */
  function Lifecycle(runHooks: bool, completed: bool): seq<Event>
  {
    (if runHooks then [PreHook] else []) +
    (if completed then (if runHooks then [Built, PostHook] else [Built]) else [])
  }

  /** How often `e` happens in `trace`. */
  function Count(trace: seq<Event>, e: Event): (r: nat)
    ensures r <= |trace|
    ensures r == 0 <==> e !in trace
  {
    if |trace| == 0 then 0
    else (if trace[0] == e then 1 else 0) + Count(trace[1..], e)
  }

  /**
   * Without `runHooks` neither hook fires; with it the pre hook fires once,
   * before anything is built, and the post hook fires once after the whole
   * build, but only when the build completed. The build is recorded once
   * when it completed and not at all when it failed.
   */
  lemma LifecycleHooks(runHooks: bool, completed: bool)
    ensures Count(Lifecycle(runHooks, completed), Built) == (if completed then 1 else 0)
    ensures Count(Lifecycle(runHooks, completed), PreHook) == (if runHooks then 1 else 0)
    ensures Count(Lifecycle(runHooks, completed), PostHook) == (if runHooks && completed then 1 else 0)
    ensures runHooks ==> Lifecycle(runHooks, completed)[0] == PreHook
    ensures completed ==> Lifecycle(runHooks, completed)[|Lifecycle(runHooks, completed)| - 1] == (if runHooks then PostHook else Built)
  {
    var t := Lifecycle(runHooks, completed);
    if runHooks && completed {
      assert t == [PreHook, Built, PostHook];
      assert t[1..] == [Built, PostHook] && t[2..] == [PostHook] && t[3..] == [];
    } else if runHooks {
      assert t == [PreHook] && t[1..] == [];
    } else if completed {
      assert t == [Built] && t[1..] == [];
    } else {
      assert t == [];
    }
  }

  /** The overrides reached as `group.members` of every leaf of `leaves`, leaf by leaf. */
  function GroupMembers(leaves: seq<Section>): seq<Override>
    requires AllHave(leaves, "group")
  {
    if |leaves| == 0 then []
    else GroupMembers(leaves[..|leaves| - 1]) + Members(Sections.Get(leaves[|leaves| - 1], "group").value)
  }

  lemma GroupMembersStep(leaves: seq<Section>, i: nat)
    requires AllHave(leaves, "group") && i < |leaves|
    ensures AllHave(leaves[..i], "group") && AllHave(leaves[..i + 1], "group")
    ensures GroupMembers(leaves[..i + 1]) == GroupMembers(leaves[..i]) + Members(Sections.Get(leaves[i], "group").value)
  {
    assert leaves[..i + 1][..i] == leaves[..i];
  }

  /**
   * `before` and `after` are what the gets around each set returned, and
   * `store` is what the sets made of `store0`: the first get sees `store0`,
   * every later get sees what a read of `value` gives.
   */
  predicate Recorded(before: seq<Option<Value>>, after: seq<Option<Value>>, store0: map<string, Value>,
                     store: map<string, Value>, key: string, value: Value)
  {
    |before| == |after| &&
    (forall k :: 0 <= k < |after| ==> after[k] == Read(value)) &&
    (|before| > 0 ==> before[0] == Stored(store0, key)) &&
    (forall k :: 0 < k < |before| ==> before[k] == Read(value)) &&
    store == (if |before| == 0 then store0 else store0[key := value])
  }

  lemma RecordedStep(before: seq<Option<Value>>, after: seq<Option<Value>>, store0: map<string, Value>,
                     store: map<string, Value>, key: string, value: Value, got: Option<Value>, again: Option<Value>)
    requires Recorded(before, after, store0, store, key, value)
    requires got == Stored(store, key) && again == Read(value)
    ensures Recorded(before + [got], after + [again], store0, store[key := value], key, value)
  {
    if |before| > 0 {
      assert store0[key := value][key := value] == store0[key := value];
    }
  }

  class SectionTree {
    /** The built tree, or why the document could not be built. */
    var result: Result<Section, BuildError>
    /** The one context every section and override of this tree hands out. */
    var context: Context
    /** The events of the build, in order. */
    var trace: seq<Event>

    /**
     * A build with no context supplied installs a fresh, empty one. The
     * post hook runs only after a build that succeeded.
     */
    constructor (rootName: string, doc: Value, reg: seq<Handler>, runHooks: bool)
      ensures result == Build(rootName, doc, reg)
      ensures fresh(context) && context.store == map[]
      ensures trace == Lifecycle(runHooks, result.Ok?)
    {
      var built := Build(rootName, doc, reg);
      trace := if runHooks then [PreHook] else [];
      result := built;
      if built.Ok? {
        trace := trace + [Built];
        if runHooks {
          trace := trace + [PostHook];
        }
      }
      context := new Context();
    }

    /**
     * A build sharing the caller's context: the tree holds that very
     * object. The post hook runs only after a build that succeeded.
     */
    constructor WithContext(rootName: string, doc: Value, reg: seq<Handler>, ctx: Context, runHooks: bool)
      ensures result == Build(rootName, doc, reg)
      ensures context == ctx
      ensures trace == Lifecycle(runHooks, result.Ok?)
    {
      var built := Build(rootName, doc, reg);
      trace := if runHooks then [PreHook] else [];
      result := built;
      if built.Ok? {
        trace := trace + [Built];
        if runHooks {
          trace := trace + [PostHook];
        }
      }
      context := ctx;
    }

    /**
     * The client loop of the context test: for every member of every leaf's
     * group, `get(key)`, then `set(key, value)`, then `get(key)` again.
     * Because all of them share one context, only the first `get` can see
     * what was there before; every later one sees `value`.
     */
    method ContextRoundTrips(key: string, value: Value) returns (before: seq<Option<Value>>, after: seq<Option<Value>>)
      requires result.Ok? && AllHave(LeafSections(result.value), "group")
      modifies context
      ensures |before| == |after| == |GroupMembers(LeafSections(result.value))|
      ensures forall k :: 0 <= k < |after| ==> after[k] == Read(value)
      ensures |before| > 0 ==> before[0] == Stored(old(context.store), key)
      ensures forall k :: 0 < k < |before| ==> before[k] == Read(value)
      ensures context.store == if |before| == 0 then old(context.store) else old(context.store)[key := value]
    {
      var leaves := LeafSections(result.value);
      before, after := [], [];
      var i := 0;
      while i < |leaves|
        invariant 0 <= i <= |leaves|
        invariant AllHave(leaves[..i], "group") && |before| == |GroupMembers(leaves[..i])|
        invariant Recorded(before, after, old(context.store), context.store, key, value)
      {
        var members := Members(Sections.Get(leaves[i], "group").value);
        GroupMembersStep(leaves, i);
        var j := 0;
        while j < |members|
          invariant 0 <= j <= |members|
          invariant |before| == |GroupMembers(leaves[..i])| + j
          invariant Recorded(before, after, old(context.store), context.store, key, value)
        {
          var got := context.Get(key);
          ghost var store := context.store;
          context.Set(key, value);
          var again := context.Get(key);
          RecordedStep(before, after, old(context.store), store, key, value, got, again);
          before, after := before + [got], after + [again];
          j := j + 1;
        }
        i := i + 1;
      }
      assert leaves[..i] == leaves;
    }
  }
}
