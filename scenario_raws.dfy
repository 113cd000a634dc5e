/**
 * Raw scalar types (tests/unit/test_ystruct.py:462-476): a plain override
 * keeps the document's scalars as they were loaded, so a string stays a
 * string and an integer an integer. The root itself holds the override and
 * is therefore the one leaf.
 */
module RawsScenario {
  import opened Wrappers
  import opened Document
  import opened Registry
  import opened Paths
  import opened Overrides
  import opened OverrideAccess
  import opened Sections
  import opened BuildSteps

  const RawsVal := Map([KV("red", Str("meat")), KV("bits", Int(8)), KV("bytes", Int(1)), KV("stringbits", Str("8"))])
  const Doc := Map([KV("raws", RawsVal)])
  const Reg := [Raws]
  const O := Plain("StructRRaws", "raws", "rawtest.raws", RawsVal)
  const Root := Section("rawtest", "rawtest", None, "rawtest", Doc, [], [O])

  lemma RawsExplicit()
    ensures ExplicitOverrides(Reg, "rawtest", Doc.entries, 0) == Ok([O])
  {
    assert Dot("rawtest", "raws") == "rawtest" + "." + "raws";
    assert Dot("rawtest", "raws") == "rawtest.raws";
    assert ResolveIndex(Reg, "raws") == Some(0);
    OneOverrideExplicit(Reg, "rawtest", "raws", RawsVal, 0, O);
  }

  lemma RootBuilds()
    ensures Build("rawtest", Doc, Reg) == Ok(Root)
  {
    RawsExplicit();
    assert Classify(Reg, "raws", RawsVal) == OverrideKey(0);
    OverridesOnly(Reg, "rawtest", None, "rawtest", "rawtest", Doc, [O]);
  }

  lemma RawsFound()
    ensures LeafSections(Root) == [Root]
    ensures Sections.Get(Root, "raws") == Some(O)
  {
    PlainAttr("raws");
  }

  lemma RawsFields()
    ensures Field(RawsVal, "red") == Some(Str("meat"))
    ensures Field(RawsVal, "bits") == Some(Int(8))
    ensures Field(RawsVal, "bytes") == Some(Int(1))
    ensures Field(RawsVal, "stringbits") == Some(Str("8"))
  {
    assert Lookup(RawsVal.entries[3..], "stringbits") == Some(Str("8"));
    assert Lookup(RawsVal.entries[2..], "bytes") == Some(Int(1));
  }

  /**
   * The root is the only leaf; its `raws` override reads back `red` as the
   * string "meat", `bits` and `bytes` as the integers 8 and 1, and
   * `stringbits` as the string "8".
   */
  lemma RawsScenarioHolds()
    ensures Build("rawtest", Doc, Reg) == Ok(Root)
    ensures LeafSections(Root) == [Root]
    ensures Sections.Get(Root, "raws") == Some(O)
    ensures Field(Content(O), "red") == Some(Str("meat"))
    ensures Field(Content(O), "bytes") == Some(Int(1))
    ensures Field(Content(O), "bits") == Some(Int(8))
    ensures Field(Content(O), "stringbits") == Some(Str("8"))
  {
    RootBuilds();
    RawsFound();
    RawsFields();
  }
}
