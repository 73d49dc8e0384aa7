// The inventories specification proposals carry.
module SpecificationInventories {
  import opened Sequences
  import opened SpecificationTransport

  const SECTIONS: seq<string> := [
    "purpose_scope", "parameters", "interfaces", "clock_reset_cdc",
    "functional_operation", "timing_performance", "exceptional_behavior", "integration"]

  const CATEGORIES: seq<string> := [
    "interfaces", "widths_signedness", "clock_reset", "timing_latency", "handshake", "exceptional_behavior",
      "acceptance"]

  const HARDWARE := Inventory("hardware_specification", "sections", SECTIONS, "id", {"status", "content"})
  const READINESS :=
    Inventory("readiness", "items", CATEGORIES, "category", {"status", "decision", "requirement_ids", "ports"})
  const SHAPE := Shape("top", "rtl_top_module_name", [HARDWARE, READINESS])

  // Every result about a well-formed shape holds of the one in use.
  lemma ShapeIsWellFormed()
    ensures WellFormed(SHAPE)
  {
    assert Distinct(SECTIONS);
    assert Distinct(CATEGORIES);
  }
}
