/**
 * The eviction-set descriptor of include/eviction_set.h and
 * src/eviction_set.c: one allocation of `64 * cacheSets * (cacheLines +
 * warmupLines)` bytes, split into a warmup section followed immediately by
 * an occupation section. Row `l` of either section holds one 64-byte line
 * for each of the `cacheSets` congruence classes, so line `(s, l)` sits at
 * `start + (l * cacheSets + s) * 64`.
 *
 * The allocator (`mmap` with huge pages) is not modelled: its result is the
 * `base` argument of NewEvictionSet, and releasing it (`munmap`) is
 * reported as the region FreeEvictionSet hands back.
 */
module EvictionSets {
  import opened Platform
  import opened Cache
  import Address

  /** The null pointer. */
  const NULL: nat := 0
  /** One more than the largest 64-bit address. */
  const ADDRESS_SPACE: nat := 0x1_0000_0000_0000_0000

  datatype Option<T> = None | Some(value: T)

  /** `wide_ptr`: a start address and a size in bytes. */
  datatype WidePtr = WidePtr(startAddr: nat, size: nat)

  /** `eviction_set`. */
  datatype EvictionSet = EvictionSet(
    warmupSection: WidePtr,
    occupationSection: WidePtr,
    cacheSets: nat,
    cacheLines: nat,
    warmupLines: nat)

  /** Bytes requested from the allocator: one line per class for every
      occupation and every warmup row, that is, a warmup section and an
      occupation section of the sizes WellFormed gives them, back to back. */
  function AllocationSize(cacheSets: nat, cacheLines: nat, warmupLines: nat): (r: nat)
    ensures r == CACHE_LINE_SIZE * cacheSets * warmupLines + CACHE_LINE_SIZE * cacheSets * cacheLines
  {
    CACHE_LINE_SIZE * cacheSets * (cacheLines + warmupLines)
  }

  /** What the allocator is trusted to return: a non-null address at set 0,
      block 0 of the geometry of address.h, that is, a multiple of
      64 * 512 bytes. */
  predicate IsAllocationBase(base: nat)
  {
    base != NULL && base % (CACHE_LINE_SIZE * Address.NUM_SETS) == 0
  }

  /** The layout every descriptor built by NewEvictionSet has: section
      sizes fixed by the geometry, and the occupation section right after
      the warmup section. */
  predicate WellFormed(es: EvictionSet)
  {
    && es.warmupSection.size == CACHE_LINE_SIZE * es.cacheSets * es.warmupLines
    && es.occupationSection.size == CACHE_LINE_SIZE * es.cacheSets * es.cacheLines
    && es.occupationSection.startAddr == es.warmupSection.startAddr + es.warmupSection.size
  }

  /** Both sections lie inside a memory of `memorySize` bytes. */
  predicate InMemory(es: EvictionSet, memorySize: nat)
  {
    && es.warmupSection.startAddr + es.warmupSection.size <= memorySize
    && es.occupationSection.startAddr + es.occupationSection.size <= memorySize
  }

  /** `new_eviction_set`, with the allocation it receives from `mmap` given
      as `base`. */
  function NewEvictionSet(base: nat, cacheSets: nat, cacheLines: nat, warmupLines: nat): (es: EvictionSet)
    requires IsAllocationBase(base)
    requires base + AllocationSize(cacheSets, cacheLines, warmupLines) <= ADDRESS_SPACE
    ensures WellFormed(es)
    ensures es.warmupSection.startAddr == base
    ensures es.warmupSection.size + es.occupationSection.size
         == AllocationSize(cacheSets, cacheLines, warmupLines)
    ensures es.occupationSection.startAddr + es.occupationSection.size
         == base + AllocationSize(cacheSets, cacheLines, warmupLines)
    ensures warmupLines == 0 ==> es.warmupSection.startAddr == es.occupationSection.startAddr
    ensures es.cacheSets == cacheSets && es.cacheLines == cacheLines && es.warmupLines == warmupLines
  {
    var warmupStart := base;
    var occupationStart := base + warmupLines * cacheSets * CACHE_LINE_SIZE;
    var warmupSize := CACHE_LINE_SIZE * cacheSets * warmupLines;
    var occupationSize := CACHE_LINE_SIZE * cacheSets * cacheLines;
    EvictionSet(
      WidePtr(warmupStart, warmupSize),
      WidePtr(occupationStart, occupationSize),
      cacheSets, cacheLines, warmupLines)
  }

  /** The descriptor free_eviction_set leaves behind: every field 0 or
      NULL. */
  function Zeroed(): (es: EvictionSet)
    ensures WellFormed(es) && InMemory(es, 0)
  {
    EvictionSet(WidePtr(NULL, 0), WidePtr(NULL, 0), 0, 0, 0)
  }

  /** The region free_eviction_set passes to `munmap`: the whole allocation
      from the warmup start, or nothing when that start is NULL. */
  function Unmapped(es: EvictionSet): Option<WidePtr>
  {
    if es.warmupSection.startAddr != NULL
    then Some(WidePtr(es.warmupSection.startAddr, es.warmupSection.size + es.occupationSection.size))
    else None
  }

  /** Freeing a descriptor built by NewEvictionSet releases exactly the
      allocation it was built from. */
  lemma FreeReleasesAllocation(base: nat, cacheSets: nat, cacheLines: nat, warmupLines: nat)
    requires IsAllocationBase(base)
    requires base + AllocationSize(cacheSets, cacheLines, warmupLines) <= ADDRESS_SPACE
    ensures Unmapped(NewEvictionSet(base, cacheSets, cacheLines, warmupLines))
         == Some(WidePtr(base, AllocationSize(cacheSets, cacheLines, warmupLines)))
  {
  }

  /** Freeing a descriptor that was already freed releases nothing. */
  lemma FreeZeroedReleasesNothing()
    ensures Unmapped(Zeroed()) == None
  {
  }

  /** The caller's `eviction_set` variable that free_eviction_set receives
      a pointer to. */
  class EvictionSetVar {
    var value: EvictionSet

    constructor (es: EvictionSet)
      ensures value == es
    {
      value := es;
    }
  }

  /** `free_eviction_set`: nothing for a null pointer; otherwise releases
      the allocation if the warmup start is not NULL, then zeroes every
      field. `unmapped` is the `munmap` call made, if any. */
  method FreeEvictionSet(es: EvictionSetVar?) returns (unmapped: Option<WidePtr>)
    modifies es
    ensures es == null ==> unmapped == None
    ensures es != null ==> es.value == Zeroed() && unmapped == Unmapped(old(es.value))
  {
    if es == null {
      return None;
    }
    unmapped := None;
    if es.value.warmupSection.startAddr != NULL {
      unmapped := Some(WidePtr(es.value.warmupSection.startAddr,
                               es.value.warmupSection.size + es.value.occupationSection.size));
    }
    es.value := EvictionSet(WidePtr(NULL, 0), WidePtr(NULL, 0), 0, 0, 0);
  }

  /** Freeing the same descriptor twice: the second call releases nothing
      and leaves the descriptor zeroed. */
  method FreeTwice(es: EvictionSetVar) returns (first: Option<WidePtr>, second: Option<WidePtr>)
    modifies es
    ensures first == Unmapped(old(es.value))
    ensures second == None && es.value == Zeroed()
  {
    first := FreeEvictionSet(es);
    second := FreeEvictionSet(es);
  }

  /** The events of flush_eviction_set: every line of the warmup section,
      then every line of the occupation section, then one fence. */
  function FlushSetEvents(es: EvictionSet): seq<Event>
  {
    Sweep(Flush, es.warmupSection.startAddr, CACHE_LINE_SIZE, LineCount(es.warmupSection.size))
    + Sweep(Flush, es.occupationSection.startAddr, CACHE_LINE_SIZE, LineCount(es.occupationSection.size))
    + [Fence]
  }

  /** `flush_eviction_set`. The descriptor is passed by value, so it cannot
      change; memory does not change either. */
  method FlushEvictionSet(m: Machine, es: EvictionSet)
    requires InMemory(es, m.mem.Length)
    modifies m
    ensures m.trace == old(m.trace) + FlushSetEvents(es)
    ensures m.mem[..] == old(m.mem[..])
  {
    FlushBufferUnfenced(m, es.warmupSection.startAddr, es.warmupSection.size);
    FlushBufferUnfenced(m, es.occupationSection.startAddr, es.occupationSection.size);
    m.MemoryFence();
  }

  /** The shape of a flush of an eviction set: one flush per line of the
      warmup section in increasing order, then one per line of the
      occupation section, then a single fence and nothing after it. */
  lemma FlushSetShape(es: EvictionSet)
    ensures var w, o := LineCount(es.warmupSection.size), LineCount(es.occupationSection.size);
      && |FlushSetEvents(es)| == w + o + 1
      && (forall k | 0 <= k < w ::
            FlushSetEvents(es)[k] == Line(Flush, es.warmupSection.startAddr + k * CACHE_LINE_SIZE))
      && (forall k | w <= k < w + o ::
            FlushSetEvents(es)[k] == Line(Flush, es.occupationSection.startAddr + (k - w) * CACHE_LINE_SIZE))
      && FlushSetEvents(es)[w + o] == Fence
  {
    var w, o := LineCount(es.warmupSection.size), LineCount(es.occupationSection.size);
    var ws, os := es.warmupSection.startAddr, es.occupationSection.startAddr;
    var t := FlushSetEvents(es);
    forall k | 0 <= k < w
      ensures t[k] == Line(Flush, ws + k * CACHE_LINE_SIZE)
    {
      SweepAt(Flush, ws, CACHE_LINE_SIZE, w, k);
    }
    forall k | w <= k < w + o
      ensures t[k] == Line(Flush, os + (k - w) * CACHE_LINE_SIZE)
    {
      SweepAt(Flush, os, CACHE_LINE_SIZE, o, k - w);
    }
  }

  /** A zeroed descriptor flushes nothing and only fences. */
  lemma FlushZeroedOnlyFences()
    ensures FlushSetEvents(Zeroed()) == [Fence]
  {
  }

  /** The layout of a well-formed descriptor counted in lines: the warmup
      section has `cacheSets * warmupLines` of them, the occupation section
      `cacheSets * cacheLines`, and it starts that many warmup lines on. */
  lemma WellFormedLines(es: EvictionSet)
    requires WellFormed(es)
    ensures LineCount(es.warmupSection.size) == es.cacheSets * es.warmupLines
    ensures LineCount(es.occupationSection.size) == es.cacheSets * es.cacheLines
    ensures es.occupationSection.startAddr
         == es.warmupSection.startAddr + (es.cacheSets * es.warmupLines) * CACHE_LINE_SIZE
    ensures es.cacheSets * es.warmupLines + es.cacheSets * es.cacheLines
         == es.cacheSets * (es.warmupLines + es.cacheLines)
  {
    var w := es.cacheSets * es.warmupLines;
    var o := es.cacheSets * es.cacheLines;
    assert es.warmupSection.size == w * CACHE_LINE_SIZE;
    assert es.occupationSection.size == o * CACHE_LINE_SIZE;
    LineCountOfLines(w);
    LineCountOfLines(o);
  }

  /** On a well-formed descriptor the two sections are one run of lines, so
      the flush covers every line of the allocation once, in address
      order, before its fence. */
  lemma FlushSetCoversAllocation(es: EvictionSet)
    requires WellFormed(es)
    ensures FlushSetEvents(es)
         == Sweep(Flush, es.warmupSection.startAddr, CACHE_LINE_SIZE,
                  es.cacheSets * (es.warmupLines + es.cacheLines)) + [Fence]
  {
    WellFormedLines(es);
    SweepSplit(Flush, es.warmupSection.startAddr, CACHE_LINE_SIZE,
               es.cacheSets * es.warmupLines, es.cacheSets * es.cacheLines);
  }
}
