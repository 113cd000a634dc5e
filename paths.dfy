/** Dotted paths and the attribute spelling of an alias. */
module Paths {

  /** A child's path: its parent's path, a dot, and the name that reached it. */
  function Dot(parent: string, name: string): (r: string)
    ensures |r| == |parent| + 1 + |name|
    ensures r[..|parent|] == parent && r[|parent|] == '.' && r[|parent| + 1..] == name
  {
    parent + "." + name
  }

  /** A child's path starts with its parent's path and a dot. */
  lemma DotExtends(parent: string, name: string)
    ensures |Dot(parent, name)| >= |parent| + 1 && Dot(parent, name)[..|parent| + 1] == parent + "."
  {
    assert (parent + "." + name)[..|parent| + 1] == parent + ".";
  }

  /**
   * The attribute under which an override is reached: a hyphenated alias
   * such as `message-alt` is read as `message_alt`. The spelling keeps the
   * alias's length, turns each hyphen into an underscore and keeps every
   * other character where it was.
   */
  function AttrName(alias: string): (r: string)
    ensures |r| == |alias|
    ensures forall i :: 0 <= i < |alias| ==> r[i] == if alias[i] == '-' then '_' else alias[i]
    ensures '-' !in r
  {
    seq(|alias|, i requires 0 <= i < |alias| => if alias[i] == '-' then '_' else alias[i])
  }

  /** An alias without a hyphen is its own attribute name. */
  lemma PlainAttr(alias: string)
    requires forall i :: 0 <= i < |alias| ==> alias[i] != '-'
    ensures AttrName(alias) == alias
  {
    assert forall i :: 0 <= i < |alias| ==> AttrName(alias)[i] == alias[i];
  }
}
