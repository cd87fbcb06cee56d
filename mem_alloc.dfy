/** `TestMemAlloc` of src/wpe/test/util/test_mem_alloc.hpp: the allocator
    the plugin tests hand to the sound engine. It forwards to the C runtime
    and records every live block, plain and aligned in two separate tables,
    so a test can ask whether everything was given back and how much is
    still held. The runtime's allocation calls are oracles here: each
    operation is given the pointer the runtime returned. */
module MemAlloc {

  /** Pointers as addresses. */
  type Ptr = nat

  const SizeTModulus: nat := 0x1_0000_0000_0000_0000

  /** `size_t`: 64 bits. */
  type SizeT = x: nat | x < SizeTModulus

  /** `AkUInt32` */
  type UInt32 = x: nat | x < 0x1_0000_0000

  /** `PointerInfo`: what the table keeps about one block. */
  datatype PointerInfo = PointerInfo(size: SizeT, file: string, line: UInt32)

  /** Both tables: `m_normalPointers` and `m_memAlignedPointers`. */
  datatype Tables = Tables(normal: map<Ptr, PointerInfo>, aligned: map<Ptr, PointerInfo>)

  // ---------------------------------------------------------------------
  // The tables after each operation

  /** After `Malloc`: the block recorded in the plain table only. */
  function Malloced(t: Tables, p: Ptr, info: PointerInfo): Tables
  {
    t.(normal := t.normal[p := info])
  }

  /** After `Realloc`: the old pointer dropped from the plain table, the new
      one recorded there. */
  function Realloced(t: Tables, old_: Ptr, p: Ptr, info: PointerInfo): Tables
  {
    t.(normal := (t.normal - {old_})[p := info])
  }

  /** After `Free`: the aligned table is looked at first; a pointer in
      neither table changes nothing. */
  function Freed(t: Tables, p: Ptr): Tables
  {
    if p in t.aligned then t.(aligned := t.aligned - {p})
    else if p in t.normal then t.(normal := t.normal - {p})
    else t
  }

  /** After `Malign`: the block recorded in the aligned table only. */
  function Maligned(t: Tables, p: Ptr, info: PointerInfo): Tables
  {
    t.(aligned := t.aligned[p := info])
  }

  /** After `ReallocAligned`: the old pointer dropped from the aligned table,
      the new one recorded there. */
  function ReallocedAligned(t: Tables, old_: Ptr, p: Ptr, info: PointerInfo): Tables
  {
    t.(aligned := (t.aligned - {old_})[p := info])
  }

  /** Freeing a block just allocated gives back the tables as they were. */
  lemma FreeUndoesMalloc(t: Tables, p: Ptr, info: PointerInfo)
    requires p !in t.normal && p !in t.aligned
    ensures Freed(Malloced(t, p, info), p) == t
  {
    assert (t.normal[p := info]) - {p} == t.normal;
  }

  /** Freeing an aligned block just allocated gives back the tables as they were. */
  lemma FreeUndoesMalign(t: Tables, p: Ptr, info: PointerInfo)
    requires p !in t.aligned
    ensures Freed(Maligned(t, p, info), p) == t
  {
    assert (t.aligned[p := info]) - {p} == t.aligned;
  }

  /** A pointer that is in both tables is freed from the aligned one first:
      the plain record stays. */
  lemma FreePrefersAligned(t: Tables, p: Ptr)
    requires p in t.aligned && p in t.normal
    ensures p in Freed(t, p).normal && p !in Freed(t, p).aligned
  {
  }

  // ---------------------------------------------------------------------
  // Sizes

  /** The sum of the sizes recorded in a table, as a mathematical number. */
  ghost function Total(m: map<Ptr, PointerInfo>): nat
    decreases |m|
  {
    if m == map[] then 0
    else
      var p :| p in m;
      m[p].size + Total(m - {p})
  }

  /** The sum can be taken starting from any recorded block. */
  lemma {:induction false} TotalRemove(m: map<Ptr, PointerInfo>, q: Ptr)
    requires q in m
    ensures Total(m) == m[q].size + Total(m - {q})
    decreases |m|
  {
    var p :| p in m && Total(m) == m[p].size + Total(m - {p});
    if p != q {
      TotalRemove(m - {p}, q);
      TotalRemove(m - {q}, p);
      assert m - {p} - {q} == m - {q} - {p};
    }
  }

  /** Recording a new block adds its size; overwriting a record replaces
      the old size by the new one. */
  lemma TotalUpdate(m: map<Ptr, PointerInfo>, p: Ptr, info: PointerInfo)
    ensures p !in m ==> Total(m[p := info]) == Total(m) + info.size
    ensures p in m ==> Total(m[p := info]) + m[p].size == Total(m) + info.size
  {
    TotalRemove(m[p := info], p);
    assert m[p := info] - {p} == m - {p};
    if p in m {
      TotalRemove(m, p);
    } else {
      assert m - {p} == m;
    }
  }

  // ---------------------------------------------------------------------

  class TestMemAlloc {
    var normalPointers: map<Ptr, PointerInfo>
    var alignedPointers: map<Ptr, PointerInfo>

    function State(): Tables
      reads this
    {
      Tables(normalPointers, alignedPointers)
    }

    constructor ()
      ensures normalPointers == map[] && alignedPointers == map[]
    {
      normalPointers := map[];
      alignedPointers := map[];
    }

    /** `Malloc(size, file, line)`; `p` is what `malloc` returned. */
    method Malloc(size: SizeT, file: string, line: UInt32, p: Ptr) returns (r: Ptr)
      modifies this
      ensures r == p
      ensures State() == Malloced(old(State()), p, PointerInfo(size, file, line))
    {
      normalPointers := normalPointers[p := PointerInfo(size, file, line)];
      return p;
    }

    /** `Realloc(address, size, file, line)`; `p` is what `realloc` returned. */
    method Realloc(address: Ptr, size: SizeT, file: string, line: UInt32, p: Ptr) returns (r: Ptr)
      modifies this
      ensures r == p
      ensures State() == Realloced(old(State()), address, p, PointerInfo(size, file, line))
    {
      normalPointers := normalPointers - {address};
      normalPointers := normalPointers[p := PointerInfo(size, file, line)];
      return p;
    }

    /** `Free(address)` */
    method Free(address: Ptr)
      modifies this
      ensures State() == Freed(old(State()), address)
    {
      if address in alignedPointers {
        alignedPointers := alignedPointers - {address};
      } else if address in normalPointers {
        normalPointers := normalPointers - {address};
      }
    }

    /** `Malign(size, alignment, file, line)`; `p` is what the aligned
        allocation returned. */
    method Malign(size: SizeT, alignment: SizeT, file: string, line: UInt32, p: Ptr) returns (r: Ptr)
      modifies this
      ensures r == p
      ensures State() == Maligned(old(State()), p, PointerInfo(size, file, line))
    {
      alignedPointers := alignedPointers[p := PointerInfo(size, file, line)];
      return p;
    }

    /** `ReallocAligned(address, size, alignment, file, line)`; `p` is what
        the aligned reallocation returned. */
    method ReallocAligned(address: Ptr, size: SizeT, alignment: SizeT, file: string, line: UInt32, p: Ptr)
      returns (r: Ptr)
      modifies this
      ensures r == p
      ensures State() == ReallocedAligned(old(State()), address, p, PointerInfo(size, file, line))
    {
      alignedPointers := alignedPointers - {address};
      alignedPointers := alignedPointers[p := PointerInfo(size, file, line)];
      return p;
    }

    /** `Empty()`: nothing is held in either table. */
    method Empty() returns (r: bool)
      ensures r <==> normalPointers == map[] && alignedPointers == map[]
    {
      return |normalPointers| == 0 && |alignedPointers| == 0;
    }

    /** `MemAllocated()`: the plain sizes summed in `size_t`, so modulo 2^64. */
    method MemAllocated() returns (r: SizeT)
      ensures r == Total(normalPointers) % SizeTModulus
    {
      r := SumSizes(normalPointers);
    }

    /** `AlignedMemAllocated()`: the aligned sizes summed in `size_t`. */
    method AlignedMemAllocated() returns (r: SizeT)
      ensures r == Total(alignedPointers) % SizeTModulus
    {
      r := SumSizes(alignedPointers);
    }
  }

  /** Reducing before an addition does not change the sum modulo 2^64. */
  lemma AddMod(a: nat, b: nat)
    ensures (a % SizeTModulus + b) % SizeTModulus == (a + b) % SizeTModulus
  {
  }

  /** The summing loop of `MemAllocated` and `AlignedMemAllocated`, with the
      wrap-around of `size_t` addition. */
  method SumSizes(m: map<Ptr, PointerInfo>) returns (r: SizeT)
    ensures r == Total(m) % SizeTModulus
  {
    r := 0;
    ghost var sum: nat := 0;
    var rest := m;
    while rest != map[]
      invariant r == sum % SizeTModulus
      invariant sum + Total(rest) == Total(m)
      decreases |rest|
    {
      var p :| p in rest;
      var size := rest[p].size;
      TotalRemove(rest, p);
      AddMod(sum, size);
      r := (r + size) % SizeTModulus;
      sum := sum + size;
      rest := rest - {p};
    }
  }
}
