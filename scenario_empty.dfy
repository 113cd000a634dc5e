/**
 * An empty document (tests/unit/test_ystruct.py:189-193): the root has no
 * children, no overrides and no content, so it yields no leaf at all and
 * the test's loop body never runs.
 */
module EmptyScenario {
  import opened Wrappers
  import opened Document
  import opened Registry
  import opened Sections
  import opened BuildSteps

  const Reg := [Input, Message, Settings]
  const Root := Section("root", "root", None, "root", Map([]), [], [])

  lemma EmptyScenarioHolds()
    ensures Build("root", Map([]), Reg) == Ok(Root)
    ensures LeafSections(Root) == []
  {
    ChildrenNone(Reg, "root", "root", "root", Map([]), 0);
    ChildrenOnly(Reg, "root", None, "root", "root", Map([]), []);
  }
}
