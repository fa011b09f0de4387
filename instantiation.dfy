/**
 * How the two halves of instantiation fit together: the globals the import
 * table exports describe the same memory layout the bootstrap writer sets
 * up in guest memory.
 */
module Instantiation {
  import opened Ints
  import opened LittleEndian
  import opened Layout
  import opened Bootstrap
  import opened Registry

  /**
   * Once memory is large enough for the bookkeeping slot, a guest reading
   * the word at the address exported as `DYNAMICTOP_PTR` finds the
   * planned heap base there.
   */
  lemma DynamictopGlobalAddressesHeapBase(align: u32 -> u32, mem: seq<u8>)
    requires PlanFits(align, STATIC_BUMP)
    requires |mem| >= 216_628
    ensures EnvTable(align)[2].name == "DYNAMICTOP_PTR"
    ensures var p := EnvTable(align)[2].item.value.v as int;
      0 <= p && p + 4 <= |mem| &&
      DecodeU32(SetUpMemory(align, mem)[p..p + 4]) == DynamicBase(align, STATIC_BUMP)
  {
    EnvTableGlobals(align);
  }

  /**
   * For every `align` meeting its assumed contract, the exported globals
   * are ordered: the bookkeeping word lies wholly below `STACKTOP`, which
   * is at most `STACK_MAX`, which is at most the heap base the bootstrap
   * writes.
   */
  lemma ExportedGlobalsOrdered(align: u32 -> u32, boundary: nat)
    requires AlignsTo(align, boundary)
    ensures PlanFits(align, STATIC_BUMP)
    ensures EnvTable(align)[2].item.value.v + 4 <= EnvTable(align)[0].item.value.v
    ensures EnvTable(align)[0].item.value.v <= EnvTable(align)[1].item.value.v
    ensures EnvTable(align)[1].item.value.v <= DynamicBase(align, STATIC_BUMP)
  {
    StaticBumpFits(align, boundary);
    LayoutOrdered(align, boundary, STATIC_BUMP);
    EnvTableGlobals(align);
  }
}
