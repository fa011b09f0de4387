/**
 * The memory layout planner: where the guest's stack and heap start,
 * computed from the size of its static data segment ("static bump").
 *
 * The rounding function `align_memory` belongs to a storage module that
 * is not part of this model. Every planner function therefore takes it as
 * a parameter `align`, and the facts proved here rest on the contract
 * `AlignsTo`, stated explicitly as an assumption about that function.
 */
module Layout {
  import opened Ints

  /** Bytes reserved for the guest's call stack. */
  const TOTAL_STACK: u32 := 5_242_880
  /** Offset of the heap-top bookkeeping word past the static data. */
  const DYNAMICTOP_PTR_DIFF: u32 := 1088
  /** The static-data size the runtime hard-wires for every module. */
  const STATIC_BUMP: u32 := 215_536
  /** Size of one WebAssembly memory page; bounds the assumed alignment. */
  const WASM_PAGE_SIZE: nat := 0x1_0000

  /**
   * The assumed contract of `align_memory`: it rounds its argument up to
   * the next multiple of `boundary`, whenever that multiple is still a
   * `u32`. The boundary divides the page size, which makes it a power of
   * two of at most one page. Nothing is assumed about
   * arguments so close to the top of the range that rounding would overflow.
   */
  ghost predicate AlignsTo(align: u32 -> u32, boundary: nat) {
    boundary > 0 && WASM_PAGE_SIZE % boundary == 0 &&
    forall x: u32 :: x <= U32_LIMIT - boundary ==>
      x <= align(x) < x + boundary && align(x) % boundary == 0
  }

  function DynamictopPtr(staticBump: u32): (r: u32)
    requires FitsU32(staticBump + DYNAMICTOP_PTR_DIFF)
  {
    staticBump + DYNAMICTOP_PTR_DIFF
  }

  function Stacktop(align: u32 -> u32, staticBump: u32): (r: u32)
    requires FitsU32(staticBump + DYNAMICTOP_PTR_DIFF + 4)
  {
    align(DynamictopPtr(staticBump) + 4)
  }

  /** No `u32` addition of the planner overflows for this static bump. */
  predicate PlanFits(align: u32 -> u32, staticBump: u32) {
    FitsU32(staticBump + DYNAMICTOP_PTR_DIFF + 4) &&
    FitsU32(Stacktop(align, staticBump) + TOTAL_STACK)
  }

  function StackMax(align: u32 -> u32, staticBump: u32): (r: u32)
    requires PlanFits(align, staticBump)
  {
    Stacktop(align, staticBump) + TOTAL_STACK
  }

  function DynamicBase(align: u32 -> u32, staticBump: u32): (r: u32)
    requires PlanFits(align, staticBump)
  {
    align(StackMax(align, staticBump))
  }

  /**
   * Besides the additions, both calls of `align` are made on arguments it
   * can round up without overflowing.
   */
  ghost predicate RoundingFits(align: u32 -> u32, boundary: nat, staticBump: u32) {
    staticBump + DYNAMICTOP_PTR_DIFF + 4 <= U32_LIMIT - boundary &&
    PlanFits(align, staticBump) &&
    StackMax(align, staticBump) <= U32_LIMIT - boundary
  }

  /** The two offsets that do not depend on `align` are fixed distances. */
  lemma FixedDistances(align: u32 -> u32, staticBump: u32)
    requires PlanFits(align, staticBump)
    ensures DynamictopPtr(staticBump) == staticBump + 1088
    ensures StackMax(align, staticBump) - Stacktop(align, staticBump) == 5_242_880
  {
  }

  /** `n * k` is a multiple of `n`. */
  lemma MultipleMod(n: nat, k: nat)
    requires n > 0
    ensures (n * k) % n == 0
  {
    var q, r := (n * k) / n, (n * k) % n;
    var d := k - q;
    assert n * d == r;
  }

  /** Two distinct multiples of `n` are at least `n` apart. */
  lemma MultiplesApart(n: nat, a: nat, c: nat)
    requires n > 0 && a % n == 0 && c % n == 0 && c < a
    ensures c + n <= a
  {
    var i, j := a / n, c / n;
    assert a == n * i && c == n * j;
    assert j < i;
    assert n * j + n == n * (j + 1) <= n * i;
  }

  /** Under its assumed contract, `align` is monotonic where it is defined. */
  lemma AlignMonotonic(align: u32 -> u32, boundary: nat, x: u32, y: u32)
    requires AlignsTo(align, boundary)
    requires x <= y <= U32_LIMIT - boundary
    ensures align(x) <= align(y)
  {
    if align(y) < align(x) {
      MultiplesApart(boundary, align(x), align(y));
      assert false;
    }
  }

  /**
   * The planned regions are ordered — the bookkeeping word, then the stack,
   * then the heap — and the stack and heap boundaries lie on the alignment
   * boundary.
   */
  lemma LayoutOrdered(align: u32 -> u32, boundary: nat, staticBump: u32)
    requires AlignsTo(align, boundary) && RoundingFits(align, boundary, staticBump)
    ensures DynamictopPtr(staticBump) + 4 <= Stacktop(align, staticBump)
    ensures Stacktop(align, staticBump) <= StackMax(align, staticBump)
    ensures StackMax(align, staticBump) <= DynamicBase(align, staticBump)
    ensures Stacktop(align, staticBump) % boundary == 0
    ensures StackMax(align, staticBump) % boundary == 0
    ensures DynamicBase(align, staticBump) % boundary == 0
  {
    var top := Stacktop(align, staticBump);
    assert top % boundary == 0;
    var i, j := top / boundary, WASM_PAGE_SIZE / boundary;
    assert top == boundary * i;
    assert TOTAL_STACK == boundary * (80 * j);
    assert StackMax(align, staticBump) == boundary * (i + 80 * j);
    MultipleMod(boundary, i + 80 * j);
  }

  /** A larger static bump never moves any planned boundary down. */
  lemma LayoutMonotonic(align: u32 -> u32, boundary: nat, small: u32, large: u32)
    requires AlignsTo(align, boundary)
    requires small <= large && RoundingFits(align, boundary, large)
    ensures RoundingFits(align, boundary, small)
    ensures DynamictopPtr(small) <= DynamictopPtr(large)
    ensures Stacktop(align, small) <= Stacktop(align, large)
    ensures StackMax(align, small) <= StackMax(align, large)
    ensures DynamicBase(align, small) <= DynamicBase(align, large)
  {
    AlignMonotonic(align, boundary, small + DYNAMICTOP_PTR_DIFF + 4, large + DYNAMICTOP_PTR_DIFF + 4);
    AlignMonotonic(align, boundary, StackMax(align, small), StackMax(align, large));
  }

  /**
   * The hard-wired static bump is far from the top of the address space:
   * for every admissible `align`, no planner step overflows.
   */
  lemma StaticBumpFits(align: u32 -> u32, boundary: nat)
    requires AlignsTo(align, boundary)
    ensures RoundingFits(align, boundary, STATIC_BUMP)
    ensures DynamictopPtr(STATIC_BUMP) == 216_624
    ensures 216_628 <= Stacktop(align, STATIC_BUMP) < 216_628 + WASM_PAGE_SIZE
  {
    var top := Stacktop(align, STATIC_BUMP);
    assert top < 216_628 + boundary;
  }
}
