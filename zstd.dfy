/**
 * The allocator and result encoding of the Zstandard WebAssembly wrapper
 * (src/zstd/zstd-wrapper.c), compiled for wasm32: `size_t` and pointers are
 * 32 bits wide, so the allocator's sums and the product in `calloc` wrap
 * around modulo 2^32, and the model writes that wrap-around out.
 *
 * Linear memory is a sequence of bytes whose length is a whole number of
 * 64 KiB pages; growing it appends zero pages. `heapBase` is the link-time
 * `__heap_base`.
 */
module ZstdWrapper {
  const PAGE_SIZE: nat := 0x10000
  const ADDRESS_SPACE: nat := 0x1_0000_0000
  const RESULT_SIZE: nat := 12

  /** zstd's content-size sentinels, `ZSTD_CONTENTSIZE_UNKNOWN` and `ZSTD_CONTENTSIZE_ERROR`. */
  const CONTENTSIZE_UNKNOWN: bv64 := 0xFFFF_FFFF_FFFF_FFFF
  const CONTENTSIZE_ERROR: bv64 := 0xFFFF_FFFF_FFFF_FFFE

  /** Unsigned 32-bit arithmetic. */
  function Wrap(x: nat): (r: nat)
    ensures r < ADDRESS_SPACE
    ensures x < ADDRESS_SPACE ==> r == x
  {
    x % ADDRESS_SPACE
  }

  function ZeroBytes(n: nat): (z: seq<bv8>)
    ensures |z| == n && forall i :: 0 <= i < n ==> z[i] == 0
  {
    seq(n, _ => 0)
  }

  function Max(a: nat, b: nat): nat
  {
    if a >= b then a else b
  }

  /** The allocator's globals and linear memory. */
  datatype Memory = Memory(initialized: bool, heapEnd: nat, bytes: seq<bv8>)

  /** Memory is whole pages within the 32-bit address space, and the heap starts inside it. */
  ghost predicate Sound(m: Memory, heapBase: nat)
  {
    && 0 < heapBase <= |m.bytes|
    && |m.bytes| % PAGE_SIZE == 0 && |m.bytes| <= ADDRESS_SPACE
    && m.heapEnd < ADDRESS_SPACE
  }

  function Pages(m: Memory): nat
  {
    |m.bytes| / PAGE_SIZE
  }

  /** Where the next block starts: `heap_end`, or `__heap_base` before the first allocation. */
  function Start(m: Memory, heapBase: nat): nat
  {
    if m.initialized then m.heapEnd else heapBase
  }

  /** The number of pages `malloc` needs for a block of `size` bytes at `start`, computed in 32 bits. */
  function UsedPages(start: nat, size: nat): nat
    requires size > 0
  {
    Wrap(start + size - 1) / PAGE_SIZE + 1
  }

  /** `memory.grow` to at least `pages` pages; new pages are zero. */
  function GrowTo(bytes: seq<bv8>, pages: nat): (r: seq<bv8>)
    ensures |r| == Max(|bytes|, pages * PAGE_SIZE)
    ensures r[..|bytes|] == bytes && forall i :: |bytes| <= i < |r| ==> r[i] == 0
  {
    if pages * PAGE_SIZE > |bytes| then bytes + ZeroBytes(pages * PAGE_SIZE - |bytes|) else bytes
  }

  /**
   * `malloc(size)`: null for a zero size, with nothing changed; otherwise the
   * block starts at the current heap end, which advances by `size` modulo
   * 2^32, and memory grows to the pages that the 32-bit end of the block
   * needs. When the block does not wrap around, it lies inside memory.
   */
  function MallocStep(m: Memory, heapBase: nat, size: nat): (r: (Memory, nat))
    requires Sound(m, heapBase) && size < ADDRESS_SPACE
    ensures Sound(r.0, heapBase)
    ensures size == 0 ==> r == (m, 0)
    ensures size > 0 ==> r.1 == Start(m, heapBase) && r.0.initialized && r.0.heapEnd == Wrap(r.1 + size)
    ensures size > 0 ==> Pages(r.0) == Max(Pages(m), UsedPages(r.1, size))
    ensures |r.0.bytes| >= |m.bytes| && r.0.bytes[..|m.bytes|] == m.bytes
    ensures forall i :: |m.bytes| <= i < |r.0.bytes| ==> r.0.bytes[i] == 0
    ensures size > 0 && r.1 + size <= ADDRESS_SPACE ==> r.1 + size <= |r.0.bytes|
  {
    if size == 0 then (m, 0)
    else
      var start := Start(m, heapBase);
      var used := UsedPages(start, size);
      var bytes := GrowTo(m.bytes, used);
      assert |bytes| == Max(|m.bytes|, used * PAGE_SIZE);
      assert |bytes| / PAGE_SIZE == Max(Pages(m), used);
      (Memory(true, Wrap(start + size), bytes), start)
  }

  /** `calloc`'s byte count: `count * size` in 32 bits. */
  function CallocSize(count: nat, size: nat): nat
  {
    Wrap(count * size)
  }

  /** `memset(ptr, 0, n)` (a bulk fill, which traps when the range leaves memory). */
  function Fill(bytes: seq<bv8>, ptr: nat, n: nat): (r: seq<bv8>)
    requires ptr + n <= |bytes|
    ensures |r| == |bytes|
    ensures forall i :: 0 <= i < |bytes| ==> r[i] == if ptr <= i < ptr + n then 0 else bytes[i]
  {
    bytes[..ptr] + ZeroBytes(n) + bytes[ptr + n..]
  }

  /** What a call ends with: a value, or a WebAssembly trap. */
  datatype Exit<T> = Return(value: T) | Trap

  /**
   * `calloc(count, size)`: `malloc` of the 32-bit product, then zeroing of
   * that many bytes at the block.
   */
  function CallocStep(m: Memory, heapBase: nat, count: nat, size: nat): (r: (Memory, Exit<nat>))
    requires Sound(m, heapBase) && count < ADDRESS_SPACE && size < ADDRESS_SPACE
    ensures Sound(r.0, heapBase)
    ensures var (m1, ptr) := MallocStep(m, heapBase, CallocSize(count, size));
      && (r.1.Trap? <==> ptr + CallocSize(count, size) > |m1.bytes|)
      && (r.1.Return? ==> r.1.value == ptr && r.0 == m1.(bytes := Fill(m1.bytes, ptr, CallocSize(count, size))))
  {
    var n := CallocSize(count, size);
    var (m1, ptr) := MallocStep(m, heapBase, n);
    if ptr + n > |m1.bytes| then (m1, Trap)
    else (m1.(bytes := Fill(m1.bytes, ptr, n)), Return(ptr))
  }

  // ----- The result structure -----

  /** A 32-bit value as four little-endian bytes. */
  function LittleEndian(v: bv32): (b: seq<bv8>)
    ensures |b| == 4
  {
    [(v & 0xFF) as bv8, ((v >> 8) & 0xFF) as bv8, ((v >> 16) & 0xFF) as bv8, ((v >> 24) & 0xFF) as bv8]
  }

  /** Four bytes, least significant first, as one 32-bit value. */
  function Pack(b0: bv8, b1: bv8, b2: bv8, b3: bv8): bv32
  {
    (b0 as bv32) | ((b1 as bv32) << 8) | ((b2 as bv32) << 16) | ((b3 as bv32) << 24)
  }

  function LoadU32(bytes: seq<bv8>, addr: nat): bv32
    requires addr + 4 <= |bytes|
  {
    Pack(bytes[addr], bytes[addr + 1], bytes[addr + 2], bytes[addr + 3])
  }

  /** Each byte of a packed value is found back at its position. */
  lemma PackedByte0(b0: bv8, b1: bv8, b2: bv8, b3: bv8)
    ensures (Pack(b0, b1, b2, b3) & 0xFF) as bv8 == b0
  {
  }

  lemma PackedByte1(b0: bv8, b1: bv8, b2: bv8, b3: bv8)
    ensures ((Pack(b0, b1, b2, b3) >> 8) & 0xFF) as bv8 == b1
  {
  }

  lemma PackedByte2(b0: bv8, b1: bv8, b2: bv8, b3: bv8)
    ensures ((Pack(b0, b1, b2, b3) >> 16) & 0xFF) as bv8 == b2
  {
  }

  lemma PackedByte3(b0: bv8, b1: bv8, b2: bv8, b3: bv8)
    ensures ((Pack(b0, b1, b2, b3) >> 24) & 0xFF) as bv8 == b3
  {
  }

  /** Packing and splitting into little-endian bytes are inverse. */
  lemma PackedBytes(b0: bv8, b1: bv8, b2: bv8, b3: bv8)
    ensures LittleEndian(Pack(b0, b1, b2, b3)) == [b0, b1, b2, b3]
  {
    PackedByte0(b0, b1, b2, b3);
    PackedByte1(b0, b1, b2, b3);
    PackedByte2(b0, b1, b2, b3);
    PackedByte3(b0, b1, b2, b3);
  }

  function StoreU32(bytes: seq<bv8>, addr: nat, v: bv32): (r: seq<bv8>)
    requires addr + 4 <= |bytes|
    ensures |r| == |bytes|
    ensures forall i :: 0 <= i < |bytes| && !(addr <= i < addr + 4) ==> r[i] == bytes[i]
  {
    bytes[..addr] + LittleEndian(v) + bytes[addr + 4..]
  }

  lemma LittleEndianLoads(v: bv32)
    ensures LoadU32(LittleEndian(v), 0) == v
  {
  }

  /** A stored value is loaded back, and loads elsewhere are undisturbed. */
  lemma StoreThenLoad(bytes: seq<bv8>, addr: nat, v: bv32, other: nat)
    requires addr + 4 <= |bytes| && other + 4 <= |bytes|
    ensures LoadU32(StoreU32(bytes, addr, v), addr) == v
    ensures other + 4 <= addr || addr + 4 <= other ==> LoadU32(StoreU32(bytes, addr, v), other) == LoadU32(bytes, other)
  {
    var r := StoreU32(bytes, addr, v);
    var e := LittleEndian(v);
    assert r[addr] == e[0] && r[addr + 1] == e[1] && r[addr + 2] == e[2] && r[addr + 3] == e[3];
    LittleEndianLoads(v);
  }

  /** Zero bytes load as zero. */
  lemma ZerosLoadZero(bytes: seq<bv8>, addr: nat)
    requires addr + 4 <= |bytes|
    requires bytes[addr] == 0 && bytes[addr + 1] == 0 && bytes[addr + 2] == 0 && bytes[addr + 3] == 0
    ensures LoadU32(bytes, addr) == 0
  {
  }

  /** A loaded value is the one whose little-endian bytes are in memory. */
  lemma LoadedBytes(bytes: seq<bv8>, addr: nat)
    requires addr + 4 <= |bytes|
    ensures LittleEndian(LoadU32(bytes, addr)) == bytes[addr..addr + 4]
  {
    PackedBytes(bytes[addr], bytes[addr + 1], bytes[addr + 2], bytes[addr + 3]);
  }

  /**
   * `get_result_error`, `get_result_size` and `get_result_data`: the three
   * 32-bit fields at offsets 0, 4 and 8, each the value whose little-endian
   * bytes are stored there.
   */
  function ResultError(bytes: seq<bv8>, result: nat): (v: bv32)
    requires result + RESULT_SIZE <= |bytes|
    ensures LittleEndian(v) == bytes[result..result + 4]
  {
    LoadedBytes(bytes, result);
    LoadU32(bytes, result)
  }

  function ResultSize(bytes: seq<bv8>, result: nat): (v: bv32)
    requires result + RESULT_SIZE <= |bytes|
    ensures LittleEndian(v) == bytes[result + 4..result + 8]
  {
    LoadedBytes(bytes, result + 4);
    LoadU32(bytes, result + 4)
  }

  function ResultData(bytes: seq<bv8>, result: nat): (v: bv32)
    requires result + RESULT_SIZE <= |bytes|
    ensures LittleEndian(v) == bytes[result + 8..result + 12]
  {
    LoadedBytes(bytes, result + 8);
    LoadU32(bytes, result + 8)
  }

  /** The error code `decompress` stores for a content size: `(cap ^ ~0) + 1001`, kept to 32 bits. */
  function ContentSizeErrorCode(cap: bv64): bv32
  {
    (((cap ^ 0xFFFF_FFFF_FFFF_FFFF) + 1001) & 0xFFFF_FFFF) as bv32
  }

  /** The two sentinels become the codes 1001 (size unknown) and 1002 (frame header error). */
  lemma SentinelCodes()
    ensures ContentSizeErrorCode(CONTENTSIZE_UNKNOWN) == 1001
    ensures ContentSizeErrorCode(CONTENTSIZE_ERROR) == 1002
  {
  }

  /** How `decompress` leaves its prologue: the error is reported, or decompression proper starts. */
  datatype Prologue = Reported(result: nat) | Decompressing(result: nat, capacity: bv64)

  /**
   * The start of `decompress`: a zeroed result structure is allocated, and a
   * content size that is one of the two sentinels is reported in its error
   * field.
   */
  function DecompressPrologue(m: Memory, heapBase: nat, contentSize: bv64): (r: (Memory, Exit<Prologue>))
    requires Sound(m, heapBase)
    ensures Sound(r.0, heapBase)
    ensures var (m1, p) := MallocStep(m, heapBase, RESULT_SIZE);
      && (r.1.Trap? <==> p + RESULT_SIZE > |m1.bytes|)
      && (r.1.Trap? ==> r.0 == m1)
      && (r.1.Return? ==> r.1.value.result == p && r.0.initialized == m1.initialized && r.0.heapEnd == m1.heapEnd)
      && (r.1.Return? ==> |r.0.bytes| == |m1.bytes|)
      && (r.1.Return? ==> forall i :: 0 <= i < |m1.bytes| && !(p <= i < p + RESULT_SIZE) ==> r.0.bytes[i] == m1.bytes[i])
      && (r.1.Return? ==> (r.1.value.Reported? <==> contentSize == CONTENTSIZE_UNKNOWN || contentSize == CONTENTSIZE_ERROR))
  {
    var (m1, result) := MallocStep(m, heapBase, RESULT_SIZE);
    if result + RESULT_SIZE > |m1.bytes| then (m1, Trap)
    else
      var zeroed := Fill(m1.bytes, result, RESULT_SIZE);
      if contentSize == CONTENTSIZE_UNKNOWN || contentSize == CONTENTSIZE_ERROR then
        (m1.(bytes := StoreU32(zeroed, result, ContentSizeErrorCode(contentSize))), Return(Reported(result)))
      else
        (m1.(bytes := zeroed), Return(Decompressing(result, contentSize)))
  }

  /**
   * When the content size is a sentinel, the result read back through the
   * getters has error 1001 (unknown) or 1002 (error), size 0 and a null
   * data pointer; otherwise decompression proper starts with a zeroed
   * result. The prologue traps only if the structure's 12 bytes wrap
   * around the address space.
   */
  lemma DecompressPrologueReports(m: Memory, heapBase: nat, contentSize: bv64)
    requires Sound(m, heapBase)
    ensures var (m1, r) := DecompressPrologue(m, heapBase, contentSize);
      && (r.Trap? ==> Start(m, heapBase) + RESULT_SIZE > ADDRESS_SPACE)
      && (r.Return? ==> r.value.result == Start(m, heapBase) && r.value.result + RESULT_SIZE <= |m1.bytes|)
      && (r.Return? ==> (r.value.Reported? <==> contentSize == CONTENTSIZE_UNKNOWN || contentSize == CONTENTSIZE_ERROR))
      && (r.Return? && r.value.Decompressing? ==> r.value.capacity == contentSize)
      && (r.Return? && r.value.result + RESULT_SIZE <= |m1.bytes| ==>
            && ResultError(m1.bytes, r.value.result) == (if contentSize == CONTENTSIZE_UNKNOWN then 1001
                                                         else if contentSize == CONTENTSIZE_ERROR then 1002 else 0)
            && ResultSize(m1.bytes, r.value.result) == 0
            && ResultData(m1.bytes, r.value.result) == 0)
  {
    var (m1, result) := MallocStep(m, heapBase, RESULT_SIZE);
    if result + RESULT_SIZE <= |m1.bytes| {
      var zeroed := Fill(m1.bytes, result, RESULT_SIZE);
      ZerosLoadZero(zeroed, result);
      ZerosLoadZero(zeroed, result + 4);
      ZerosLoadZero(zeroed, result + 8);
      if contentSize == CONTENTSIZE_UNKNOWN || contentSize == CONTENTSIZE_ERROR {
        var code := ContentSizeErrorCode(contentSize);
        SentinelCodes();
        StoreThenLoad(zeroed, result, code, result + 4);
        StoreThenLoad(zeroed, result, code, result + 8);
      }
    }
  }

  // ----- A sequence of allocations -----

  function SumOf(sizes: seq<nat>): nat
  {
    if sizes == [] then 0 else SumOf(sizes[..|sizes| - 1]) + sizes[|sizes| - 1]
  }

  /** The state and the returned pointers after `malloc` of each size in turn. */
  function Mallocs(m: Memory, heapBase: nat, sizes: seq<nat>): (r: (Memory, seq<nat>))
    requires Sound(m, heapBase) && forall i :: 0 <= i < |sizes| ==> sizes[i] < ADDRESS_SPACE
    ensures Sound(r.0, heapBase) && |r.1| == |sizes|
  {
    if sizes == [] then (m, [])
    else
      var (m1, ptrs) := Mallocs(m, heapBase, sizes[..|sizes| - 1]);
      var (m2, p) := MallocStep(m1, heapBase, sizes[|sizes| - 1]);
      (m2, ptrs + [p])
  }

  /** Without wrap-around, `malloc` returns the current start and advances it by the size. */
  lemma MallocStepAdvances(m: Memory, heapBase: nat, size: nat)
    requires Sound(m, heapBase) && Start(m, heapBase) + size < ADDRESS_SPACE
    ensures var (m1, p) := MallocStep(m, heapBase, size);
      && Start(m1, heapBase) == Start(m, heapBase) + size
      && (size > 0 ==> p == Start(m, heapBase) && p + size <= |m1.bytes|)
  {
  }

  /** Each non-empty block of `sizes` starts at `base` plus the sizes before it and ends by `limit`. */
  ghost predicate Placed(base: nat, sizes: seq<nat>, ptrs: seq<nat>, limit: nat)
    requires |ptrs| == |sizes|
  {
    forall i :: 0 <= i < |sizes| && sizes[i] > 0 ==> ptrs[i] == base + SumOf(sizes[..i]) && ptrs[i] + sizes[i] <= limit
  }

  lemma PlacedExtend(base: nat, init: seq<nat>, ptrs: seq<nat>, last: nat, p: nat, limit: nat)
    requires |ptrs| == |init|
    requires forall i :: 0 <= i < |init| && init[i] > 0 ==> ptrs[i] == base + SumOf(init[..i]) && ptrs[i] + init[i] <= limit
    requires last > 0 ==> p == base + SumOf(init) && p + last <= limit
    ensures Placed(base, init + [last], ptrs + [p], limit)
  {
    var sizes, all := init + [last], ptrs + [p];
    forall i | 0 <= i < |sizes| && sizes[i] > 0
      ensures all[i] == base + SumOf(sizes[..i]) && all[i] + sizes[i] <= limit
    {
      if i < |init| {
        assert all[i] == ptrs[i] && sizes[i] == init[i];
        assert sizes[..i] == init[..i];
      } else {
        assert sizes[..i] == init;
      }
    }
  }

  /** Memory only grows under a sequence of allocations, and the heap end advances by their total. */
  lemma {:induction false} MallocsGrow(m: Memory, heapBase: nat, sizes: seq<nat>)
    requires Sound(m, heapBase) && forall i :: 0 <= i < |sizes| ==> sizes[i] < ADDRESS_SPACE
    requires Start(m, heapBase) + SumOf(sizes) < ADDRESS_SPACE
    ensures var r := Mallocs(m, heapBase, sizes);
      && |r.0.bytes| >= |m.bytes| && r.0.bytes[..|m.bytes|] == m.bytes
      && Start(r.0, heapBase) == Start(m, heapBase) + SumOf(sizes)
    decreases |sizes|
  {
    if sizes != [] {
      var init, last := sizes[..|sizes| - 1], sizes[|sizes| - 1];
      assert SumOf(sizes) == SumOf(init) + last;
      MallocsGrow(m, heapBase, init);
      var r1 := Mallocs(m, heapBase, init);
      var r2 := MallocStep(r1.0, heapBase, last);
      MallocStepAdvances(r1.0, heapBase, last);
      assert r2.0.bytes[..|m.bytes|] == r2.0.bytes[..|r1.0.bytes|][..|m.bytes|];
    }
  }

  /**
   * As long as the requests stay below the top of the address space, every
   * non-empty block starts where the previous ones end (so blocks are
   * contiguous and disjoint), and lies inside memory, which only grows.
   */
  lemma {:induction false} MallocsContiguous(m: Memory, heapBase: nat, sizes: seq<nat>)
    requires Sound(m, heapBase) && forall i :: 0 <= i < |sizes| ==> sizes[i] < ADDRESS_SPACE
    requires Start(m, heapBase) + SumOf(sizes) < ADDRESS_SPACE
    ensures var (m1, ptrs) := Mallocs(m, heapBase, sizes);
      && |m1.bytes| >= |m.bytes| && m1.bytes[..|m.bytes|] == m.bytes
      && Start(m1, heapBase) == Start(m, heapBase) + SumOf(sizes)
    ensures var (m1, ptrs) := Mallocs(m, heapBase, sizes);
      forall i :: 0 <= i < |sizes| && sizes[i] > 0 ==>
        ptrs[i] == Start(m, heapBase) + SumOf(sizes[..i]) && ptrs[i] + sizes[i] <= |m1.bytes|
    decreases |sizes|
  {
    MallocsGrow(m, heapBase, sizes);
    if sizes != [] {
      var init, last := sizes[..|sizes| - 1], sizes[|sizes| - 1];
      MallocsContiguous(m, heapBase, init);
      MallocsGrow(m, heapBase, init);
      var r1 := Mallocs(m, heapBase, init);
      var r2 := MallocStep(r1.0, heapBase, last);
      MallocStepAdvances(r1.0, heapBase, last);
      assert Mallocs(m, heapBase, sizes) == (r2.0, r1.1 + [r2.1]);
      assert sizes == init + [last];
      PlacedExtend(Start(m, heapBase), init, r1.1, last, r2.1, |r2.0.bytes|);
    }
  }


  // ----- Findings: 32-bit wrap-around -----

  /**
   * `malloc` does not check that the block fits below 2^32: a large request
   * wraps the computed end around, so memory is not grown to cover the block
   * and the heap end moves backwards, into a block handed out earlier.
   */
  lemma MallocWrapCounterexample()
    ensures var m := Memory(false, 0, ZeroBytes(2 * PAGE_SIZE));
      var (m1, p1) := MallocStep(m, 0x10000, 0x10);
      var (m2, p2) := MallocStep(m1, 0x10000, 0xFFFF_FFFF);
      var (m3, p3) := MallocStep(m2, 0x10000, 0x10);
      && p1 == 0x10000 && p2 == 0x10010 && p3 == 0x1000F
      && |m2.bytes| == 2 * PAGE_SIZE && p2 + 0xFFFF_FFFF > |m2.bytes|
      && p1 <= p3 < p1 + 0x10
  {
    var m := Memory(false, 0, ZeroBytes(2 * PAGE_SIZE));
    assert Sound(m, 0x10000);
    assert UsedPages(0x10000, 0x10) == 2;
    var (m1, p1) := MallocStep(m, 0x10000, 0x10);
    assert m1.heapEnd == 0x10010 && |m1.bytes| == 2 * PAGE_SIZE;
    assert UsedPages(0x10010, 0xFFFF_FFFF) == 2;
    var (m2, p2) := MallocStep(m1, 0x10000, 0xFFFF_FFFF);
    assert m2.heapEnd == 0x1000F;
  }

  /**
   * `malloc` that refuses (returns null for) a block whose end would not be
   * representable in 32 bits, so the heap end never wraps around.
   */
  function CheckedMallocStep(m: Memory, heapBase: nat, size: nat): (r: (Memory, nat))
    requires Sound(m, heapBase) && Start(m, heapBase) >= heapBase && size < ADDRESS_SPACE
    ensures Sound(r.0, heapBase)
    ensures r.1 == 0 ==> r.0 == m
    ensures r.1 != 0 ==> r.1 == Start(m, heapBase) && r.1 + size <= |r.0.bytes| && Start(r.0, heapBase) == r.1 + size
    ensures r.1 != 0 <==> size > 0 && Start(m, heapBase) + size < ADDRESS_SPACE
    ensures Start(r.0, heapBase) >= Start(m, heapBase)
    ensures |r.0.bytes| >= |m.bytes| && r.0.bytes[..|m.bytes|] == m.bytes
  {
    if size == 0 || Start(m, heapBase) + size >= ADDRESS_SPACE then (m, 0)
    else MallocStep(m, heapBase, size)
  }

  /** With the check, the blocks of any sequence of requests lie inside memory and never overlap. */
  lemma {:induction false} CheckedMallocsDisjoint(m: Memory, heapBase: nat, sizes: seq<nat>)
    requires Sound(m, heapBase) && Start(m, heapBase) >= heapBase && forall i :: 0 <= i < |sizes| ==> sizes[i] < ADDRESS_SPACE
    ensures var (m1, ptrs) := CheckedMallocs(m, heapBase, sizes);
      && Start(m1, heapBase) >= Start(m, heapBase)
      && (forall i :: 0 <= i < |sizes| && ptrs[i] != 0 ==>
            Start(m, heapBase) <= ptrs[i] && ptrs[i] + sizes[i] <= Start(m1, heapBase) && ptrs[i] + sizes[i] <= |m1.bytes|)
      && (forall i, j :: 0 <= i < j < |sizes| && ptrs[i] != 0 && ptrs[j] != 0 ==> ptrs[i] + sizes[i] <= ptrs[j])
    decreases |sizes|
  {
    if sizes != [] {
      var init, last := sizes[..|sizes| - 1], sizes[|sizes| - 1];
      CheckedMallocsDisjoint(m, heapBase, init);
      var (m1, ptrs) := CheckedMallocs(m, heapBase, init);
      var (m2, p) := CheckedMallocStep(m1, heapBase, last);
      var all := ptrs + [p];
      assert CheckedMallocs(m, heapBase, sizes) == (m2, all);
      forall i | 0 <= i < |sizes| && all[i] != 0
        ensures Start(m, heapBase) <= all[i] && all[i] + sizes[i] <= Start(m2, heapBase) && all[i] + sizes[i] <= |m2.bytes|
      {
        if i < |init| {
          assert all[i] == ptrs[i] && sizes[i] == init[i];
        }
      }
      forall i, j | 0 <= i < j < |sizes| && all[i] != 0 && all[j] != 0
        ensures all[i] + sizes[i] <= all[j]
      {
        assert all[i] == ptrs[i] && sizes[i] == init[i];
        if j < |init| {
          assert all[j] == ptrs[j];
        }
      }
    }
  }

  function CheckedMallocs(m: Memory, heapBase: nat, sizes: seq<nat>): (r: (Memory, seq<nat>))
    requires Sound(m, heapBase) && Start(m, heapBase) >= heapBase && forall i :: 0 <= i < |sizes| ==> sizes[i] < ADDRESS_SPACE
    ensures Sound(r.0, heapBase) && Start(r.0, heapBase) >= Start(m, heapBase) && |r.1| == |sizes|
  {
    if sizes == [] then (m, [])
    else
      var (m1, ptrs) := CheckedMallocs(m, heapBase, sizes[..|sizes| - 1]);
      var (m2, p) := CheckedMallocStep(m1, heapBase, sizes[|sizes| - 1]);
      (m2, ptrs + [p])
  }

  /**
   * `calloc` does not check the product for overflow: 65536 elements of
   * 65537 bytes wrap around to a 64 KiB request, and the caller receives a
   * block far smaller than it asked for.
   */
  lemma CallocOverflowCounterexample()
    ensures CallocSize(0x10000, 0x10001) == 0x10000 < 0x10000 * 0x10001
  {
  }

  /** `calloc` that returns null when `count * size` does not fit in 32 bits, as the C library's `calloc` must. */
  function CheckedCallocStep(m: Memory, heapBase: nat, count: nat, size: nat): (r: (Memory, nat))
    requires Sound(m, heapBase) && Start(m, heapBase) >= heapBase && count < ADDRESS_SPACE && size < ADDRESS_SPACE
    ensures Sound(r.0, heapBase)
    ensures r.1 != 0 ==> r.1 + count * size <= |r.0.bytes| && forall i :: r.1 <= i < r.1 + count * size ==> r.0.bytes[i] == 0
    ensures r.1 == 0 ==> r.0 == m
    ensures r.1 != 0 <==> count * size > 0 && count * size < ADDRESS_SPACE && Start(m, heapBase) + count * size < ADDRESS_SPACE
  {
    if count * size >= ADDRESS_SPACE then (m, 0)
    else
      var (m1, ptr) := CheckedMallocStep(m, heapBase, count * size);
      if ptr == 0 then (m1, 0) else (m1.(bytes := Fill(m1.bytes, ptr, count * size)), ptr)
  }

  // ----- The module instance -----

  /** One instance of the wrapper: its globals and its linear memory. */
  class Instance {
    const heapBase: nat
    var initialized: bool
    var heapEnd: nat
    var memory: seq<bv8>

    function State(): Memory
      reads this
    {
      Memory(initialized, heapEnd, memory)
    }

    ghost predicate Valid()
      reads this
    {
      Sound(State(), heapBase)
    }

    /** A fresh instance: `initialPages` zero pages, `malloc_initialized` false and `heap_end` null. */
    constructor(heapBase: nat, initialPages: nat)
      requires 0 < heapBase <= initialPages * PAGE_SIZE <= ADDRESS_SPACE
      ensures Valid() && this.heapBase == heapBase
      ensures State() == Memory(false, 0, ZeroBytes(initialPages * PAGE_SIZE))
    {
      this.heapBase := heapBase;
      initialized := false;
      heapEnd := 0;
      memory := ZeroBytes(initialPages * PAGE_SIZE);
    }

    method Malloc(size: nat) returns (ptr: nat)
      requires Valid() && size < ADDRESS_SPACE
      modifies this
      ensures Valid()
      ensures (State(), ptr) == MallocStep(old(State()), heapBase, size)
    {
      if size == 0 {
        return 0;
      }
      if !initialized {
        heapEnd := heapBase;
        initialized := true;
      }
      var availPages := |memory| / PAGE_SIZE;
      var usedPages := Wrap(heapEnd + size - 1) / PAGE_SIZE + 1;
      if usedPages > availPages {
        memory := memory + ZeroBytes((usedPages - availPages) * PAGE_SIZE);
      }
      ptr := heapEnd;
      heapEnd := Wrap(heapEnd + size);
    }

    method Calloc(count: nat, size: nat) returns (r: Exit<nat>)
      requires Valid() && count < ADDRESS_SPACE && size < ADDRESS_SPACE
      modifies this
      ensures Valid()
      ensures (State(), r) == CallocStep(old(State()), heapBase, count, size)
    {
      var n := Wrap(count * size);
      var ptr := Malloc(n);
      if ptr + n > |memory| {
        return Trap;
      }
      memory := Fill(memory, ptr, n);
      return Return(ptr);
    }

    /** `free` does nothing. */
    method Free(ptr: nat)
      ensures State() == old(State())
    {
    }

    /** The exported `allocate`. */
    method Allocate(size: nat) returns (ptr: nat)
      requires Valid() && size < ADDRESS_SPACE
      modifies this
      ensures Valid()
      ensures (State(), ptr) == MallocStep(old(State()), heapBase, size)
    {
      ptr := Malloc(size);
    }

    /** The part of the exported `decompress` before zstd's decompressor runs. */
    method Decompress(contentSize: bv64) returns (r: Exit<Prologue>)
      requires Valid()
      modifies this
      ensures Valid()
      ensures (State(), r) == DecompressPrologue(old(State()), heapBase, contentSize)
    {
      var result := Malloc(RESULT_SIZE);
      if result + RESULT_SIZE > |memory| {
        return Trap;
      }
      memory := Fill(memory, result, RESULT_SIZE);
      if contentSize == CONTENTSIZE_UNKNOWN || contentSize == CONTENTSIZE_ERROR {
        memory := StoreU32(memory, result, ContentSizeErrorCode(contentSize));
        return Return(Reported(result));
      }
      return Return(Decompressing(result, contentSize));
    }

    function GetResultError(result: nat): (v: bv32)
      reads this
      requires result + RESULT_SIZE <= |memory|
      ensures LittleEndian(v) == memory[result..result + 4]
    {
      ResultError(memory, result)
    }

    function GetResultSize(result: nat): (v: bv32)
      reads this
      requires result + RESULT_SIZE <= |memory|
      ensures LittleEndian(v) == memory[result + 4..result + 8]
    {
      ResultSize(memory, result)
    }

    function GetResultData(result: nat): (v: bv32)
      reads this
      requires result + RESULT_SIZE <= |memory|
      ensures LittleEndian(v) == memory[result + 8..result + 12]
    {
      ResultData(memory, result)
    }
  }
}
