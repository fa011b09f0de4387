/**
 * The bootstrap writer: at instantiation the runtime stores the planned
 * heap base, as a little-endian 32-bit word, in the bookkeeping slot of
 * guest memory — unless that slot lies beyond the end of memory, in
 * which case nothing is written and instantiation goes on.
 */
module Bootstrap {
  import opened Ints
  import opened LittleEndian
  import opened Layout

  /** `mem` after a little-endian store of `v` into the four bytes at `offset`. */
  function StoreU32(mem: seq<u8>, offset: nat, v: u32): (r: seq<u8>)
    requires offset + 4 <= |mem|
    ensures |r| == |mem|
    ensures DecodeU32(r[offset..offset + 4]) == v
    ensures forall i :: 0 <= i < |mem| && !(offset <= i < offset + 4) ==> r[i] == mem[i]
  {
    mem[..offset] + EncodeU32(v) + mem[offset + 4..]
  }

  /**
   * Guest memory after `emscripten_set_up_memory`: the heap base planned
   * for the hard-wired static bump is readable at the bookkeeping slot when
   * the slot fits in memory, and memory is untouched otherwise.
   */
  function SetUpMemory(align: u32 -> u32, mem: seq<u8>): (r: seq<u8>)
    requires PlanFits(align, STATIC_BUMP)
    ensures |r| == |mem|
    ensures DynamictopPtr(STATIC_BUMP) + 4 > |mem| ==> r == mem
    ensures DynamictopPtr(STATIC_BUMP) + 4 <= |mem| ==>
      DecodeU32(r[DynamictopPtr(STATIC_BUMP)..DynamictopPtr(STATIC_BUMP) + 4]) == DynamicBase(align, STATIC_BUMP)
    ensures forall i :: 0 <= i < |mem| && !(DynamictopPtr(STATIC_BUMP) <= i < DynamictopPtr(STATIC_BUMP) + 4) ==>
      r[i] == mem[i]
  {
    var ptr := DynamictopPtr(STATIC_BUMP);
    if ptr + 4 > |mem| then mem else StoreU32(mem, ptr, DynamicBase(align, STATIC_BUMP))
  }

  /** Storing the same word twice at the same offset is the same as storing it once. */
  lemma StoreU32Idempotent(mem: seq<u8>, offset: nat, v: u32)
    requires offset + 4 <= |mem|
    ensures StoreU32(StoreU32(mem, offset, v), offset, v) == StoreU32(mem, offset, v)
  {
    var once := StoreU32(mem, offset, v);
    var twice := StoreU32(once, offset, v);
    assert once[offset..offset + 4] == EncodeU32(v);
    assert twice[offset..offset + 4] == EncodeU32(v);
    assert forall i :: 0 <= i < |mem| ==> twice[i] == once[i] by {
      forall i | 0 <= i < |mem|
        ensures twice[i] == once[i]
      {
        if offset <= i < offset + 4 {
          assert twice[i] == twice[offset..offset + 4][i - offset];
          assert once[i] == once[offset..offset + 4][i - offset];
        }
      }
    }
  }

  /** Running the bootstrap twice leaves memory as running it once does. */
  lemma SetUpMemoryIdempotent(align: u32 -> u32, mem: seq<u8>)
    requires PlanFits(align, STATIC_BUMP)
    ensures SetUpMemory(align, SetUpMemory(align, mem)) == SetUpMemory(align, mem)
  {
    var ptr := DynamictopPtr(STATIC_BUMP);
    if ptr + 4 <= |mem| {
      StoreU32Idempotent(mem, ptr, DynamicBase(align, STATIC_BUMP));
    }
  }

  /**
   * The guest's linear memory, as far as the bootstrap sees it: a byte
   * buffer written in place. Its growth is driven by the engine and is not
   * part of this model, so the buffer here has a fixed length.
   */
  class LinearMemory {
    const bytes: array<u8>

    /** A memory of `size` bytes. The engine creates guest memory; this constructor only gives the model one. */
    constructor (size: nat)
      ensures fresh(bytes) && bytes.Length == size
    {
      bytes := new u8[size](_ => 0);
    }

    /** `memory.len()`. */
    function Len(): (n: nat)
      reads this
    {
      bytes.Length
    }

    /** `LittleEndian::write_u32` on the four-byte slice at `offset`. */
    method WriteU32(offset: nat, v: u32)
      requires offset + 4 <= bytes.Length
      modifies bytes
      ensures bytes[..] == StoreU32(old(bytes[..]), offset, v)
    {
      var word := EncodeU32(v);
      bytes[offset] := word[0];
      bytes[offset + 1] := word[1];
      bytes[offset + 2] := word[2];
      bytes[offset + 3] := word[3];
      assert bytes[..] == old(bytes[..])[..offset] + word + old(bytes[..])[offset + 4..];
    }
  }

  /** `emscripten_set_up_memory`: the bounds-checked bootstrap write. */
  method EmscriptenSetUpMemory(memory: LinearMemory, align: u32 -> u32)
    requires PlanFits(align, STATIC_BUMP)
    modifies memory.bytes
    ensures memory.bytes[..] == SetUpMemory(align, old(memory.bytes[..]))
  {
    var ptr := DynamictopPtr(STATIC_BUMP);
    var end := ptr + 4;
    if end > memory.Len() {
      return;
    }
    memory.WriteU32(ptr, DynamicBase(align, STATIC_BUMP));
  }
}
