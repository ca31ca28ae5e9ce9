# papp core in Dafny

A model of the core of papp, a PRIME+PROBE cache-occupancy profiler. It
covers:

- **Address codec** (`address.dfy`, module `Address`). The bit-field
  slicing of a 64-bit address into tag, set index and block offset for the
  fixed geometry of 6 block bits, 9 set bits and 49 tag bits. It is written
  on `bv64` with the original shifts.
- **Machine** (`platform.dfy`, module `Platform`). A byte-addressed memory
  (`array<bv8>`) and an ordered log of what the profiler issues:
  per-line flushes, loads and read-modify-writes, fences, timed reads and
  CSV rows. The x86 primitives are opaque events in that log.
- **Line-stride walkers** (`cache.dfy`, module `Cache`). `flush_buffer`,
  `flush_buffer_unfenced`, `read_buffer`, `read_lines`, `write_buffer`,
  `write_lines` and `write_lines_stride`, as methods with loops. Each is
  proved against `Sweep`, the events it issues. The flush and read walkers
  leave memory unchanged: the read walkers say so in their contracts, the
  flush walkers by changing nothing but the log. The three write walkers
  are also proved against `Touch`, the memory they leave. Lemmas say which
  bytes change and in which order.
- **Eviction-set descriptor** (`eviction_set.dfy`, module `EvictionSets`).
  The layout arithmetic of `new_eviction_set` over an abstract allocation
  base. Also `free_eviction_set` on the caller's variable, and the event
  sequence of `flush_eviction_set`.
- **Prime and occupancy sweep** (`occupancy_profile.dfy`, module
  `Occupancy`).
  - `prime_set_write_with_warmup` is a method with its two loops.
  - `occupancy_profile` is the four-loop sweep. Each loop level is one
    method, whose loop invariant is the next level's contract.
  - The probes of a run are the sequence `Probes`, built level by level
    like the loops. The run's events and memory are functions of that
    sequence.
  - Lemmas give the number of rows, their order, which probes are
    covered, the probe addresses, and the memory left behind.

Where the comments and the code differ, the model follows the code:

- **The prime ignores its set.** `prime_set_write_with_warmup` computes
  `offset = set * 64` but adds it to no address. It therefore writes the
  class-0 line of every row, whatever set it is asked to prime
  (`Occupancy.PrimeWritesClassZero`).
- **`l_prime` is innermost.** The sample output in the header comment
  shows `SPrime` changing first, but the loop nest makes `l_prime` the
  innermost index (`Occupancy.ProbesIncreasing`).
- **`occupancy_profile` takes three arguments.** The driver `occupancy.c`
  calls it with four, but the model follows the three-argument definition.

## Model

| member | source | states |
|---|---|---|
| Address.GeometryIsConsistent | include/address.h:6-9 | the tag, set and block widths sum to 64, the tag is 49 bits, and NUM_SETS is 2^SET_BITS |
| Address.GetSetIndex | include/address.h:11-15 | the set index is bits 6..14, `(a / 64) % 512`, so it is below 512 |
| Address.GetBlockIndex | include/address.h:17-21 | the block index is `a % 64`, so it is below 64 |
| Address.GetTag | include/address.h:23-27 | the tag is `a / 2^15`, so it is below 2^49 |
| Address.ConcatAddress | include/address.h:29-33 | when the set and block fit their widths, the high 49 bits of the result are the tag modulo 2^49 and the low 15 bits are `set * 64 + block` |
| Address.DecomposeCompose | include/address.h:11-33 | each getter applied to `concat_address(tag, set, block)` returns its field, when every field fits its width |
| Address.ComposeDecompose | include/address.h:11-33 | concatenating the three fields of any 64-bit address gives that address back |
| Address.AlignedAddressIsSetZeroBlockZero | src/eviction_set.c:17-19 | an address that is a multiple of 2^15 lies in set 0 at block 0, which is what the allocator is trusted to return; no lemma connects this `bv64` fact to the `nat` precondition `EvictionSets.IsAllocationBase` |
| Platform.Apply | include/cache.h:69 | `*p = *p + 1` and `*p = *p * 2` on a byte are the sum or product modulo 256 |
| Platform.Machine.Clflush | include/utility.h:70-72 | `clflush` logs one flush of the given line and changes no memory |
| Platform.Machine.Load | include/cache.h:44-45 | a volatile load of a byte logs one read of it and changes no memory |
| Platform.Machine.WriteRow | src/occupancy_profile.c:40-41 | writing a CSV row logs exactly that row |
| Platform.Machine.ReadModifyWrite | include/cache.h:68-69 | a volatile update changes exactly the one byte it addresses and logs one write to it |
| Platform.Machine.TimedReadAccess | include/utility.h:76-85 | a timed read logs one read of the line and returns the cycle count the hardware reports |
| Platform.Machine.MemoryFence | include/utility.h:59-62 | `fence()` logs one fence and nothing else |
| Cache.LineCount | include/cache.h:18 | the number of turns of `for (i = 0; i < length; i += 64)` is the least `n` with `length <= 64 * n` |
| Cache.Sweep | include/cache.h:31-35 | the events of a walk: one operation per visited line, `n` of them, in address order |
| Cache.Touch | include/cache.h:66-70 | the memory after a walk that updates the byte at each visited line, in address order; memory keeps its size |
| Cache.SweepAt | include/cache.h:31-35 | the `k`-th event of a walk is its operation on `start + k * step`: for a positive step, lines in increasing order, once each |
| Cache.SweepSplit | include/cache.h:31-35 | a walk of `a + b` lines is a walk of `a` lines followed by a walk of `b` lines from where the first stopped |
| Cache.SweepOnlyLines | include/cache.h:31-35 | a walk issues only its per-line operation: no fence, timed read or row |
| Cache.TouchAt | include/cache.h:89-100 | with a positive stride, exactly the bytes `start + k * step` for `k < n` are updated, each once; every other byte is unchanged |
| Cache.BufferTouchAt | include/cache.h:64-73 | a buffer walk updates exactly the bytes at a multiple of 64 from `start` and below `start + length` |
| Cache.TouchSplit | include/cache.h:89-100 | updating `a + b` strided lines is updating `a` lines and then `b` more from where the first run stopped |
| Cache.FlushBuffer | include/cache.h:15-26 | one flush per line the buffer starts in, in address order, then exactly one fence |
| Cache.FlushBufferUnfenced | include/cache.h:28-36 | one flush per line the buffer starts in, in address order, and no fence |
| Cache.ReadBuffer | include/cache.h:38-47 | one load per line of the buffer; memory is unchanged |
| Cache.ReadLines | include/cache.h:49-61 | one load in each of `num_lines` consecutive lines; memory is unchanged; returns `start + num_lines * 64` |
| Cache.WriteBuffer | include/cache.h:63-73 | increments the byte at each line offset below `length`, logging one write per line; returns `start + length` |
| Cache.WriteLines | include/cache.h:75-86 | increments the first byte of each of `num_lines` consecutive lines; returns `start + num_lines * 64` |
| Cache.StrideIterationsCountsOffsets | include/cache.h:91-93 | the iteration count of `write_lines_stride` is exactly the number of offsets `k * stride * 64` below its bound `num_lines * 64 * stride`: `num_lines` of them with a positive stride, none with stride 0 |
| Cache.WriteLinesStride | include/cache.h:88-100 | increments the byte at `start + k * stride * 64` for each turn `k`; returns `start + num_lines * stride * 64` |
| Cache.WriteLinesIsStrideOne | include/cache.h:76-100 | `write_lines` and `write_lines_stride` with stride 1 change the same bytes, issue the same writes and return the same address |
| Cache.StrideZeroTouchesNothing | include/cache.h:89-100 | with stride 0, `write_lines_stride` changes no byte and issues nothing |
| EvictionSets.WellFormed | src/eviction_set.c:27-32 | the layout every new descriptor has: section sizes `64 * sets * warmup` and `64 * sets * lines`, occupation starting right after warmup |
| EvictionSets.AllocationSize | src/eviction_set.c:15 | the allocation is a warmup section of `64 * sets * warmup` bytes followed by an occupation section of `64 * sets * lines` bytes |
| EvictionSets.NewEvictionSet | src/eviction_set.c:8-47 | the section sizes are `64 * sets * warmup` and `64 * sets * lines`; the warmup starts at the base and the occupation right after it; the sizes sum to the allocation; the parameters are stored unchanged |
| EvictionSets.Zeroed | src/eviction_set.c:63-75 | the cleared descriptor is well formed and occupies no memory |
| EvictionSets.Unmapped | src/eviction_set.c:58-60 | the region passed to `munmap`: the whole allocation from the warmup start, or none when that start is NULL |
| EvictionSets.FreeReleasesAllocation | src/eviction_set.c:15-60 | freeing a new descriptor releases exactly the allocation it was built from |
| EvictionSets.FreeZeroedReleasesNothing | src/eviction_set.c:58-60 | a cleared descriptor releases nothing |
| EvictionSets.FreeEvictionSet | src/eviction_set.c:49-76 | a null pointer is left alone; otherwise the region `warmup.size + occupation.size` is released if the warmup start is not NULL, and every field is zeroed |
| EvictionSets.FreeTwice | src/eviction_set.c:49-76 | freeing twice releases the allocation once; the second call releases nothing and leaves the descriptor zeroed |
| EvictionSets.FlushSetEvents | include/eviction_set.h:62-66 | the events of the flush: the warmup sweep, the occupation sweep, one fence |
| EvictionSets.FlushEvictionSet | include/eviction_set.h:59-67 | flushes the warmup section, then the occupation section, then fences once; memory is unchanged |
| EvictionSets.FlushSetShape | include/eviction_set.h:62-66 | `ceil(warmup/64)` warmup flushes in address order, then `ceil(occupation/64)` occupation flushes, then a single final fence |
| EvictionSets.FlushZeroedOnlyFences | include/eviction_set.h:62-66 | flushing a zeroed descriptor issues only the fence |
| EvictionSets.WellFormedLines | src/eviction_set.c:29-32 | in lines, the warmup section has `sets * warmup` lines, the occupation section has `sets * lines`, and it starts right after the warmup lines |
| EvictionSets.FlushSetCoversAllocation | include/eviction_set.h:62-65 | on a well-formed descriptor the flush covers every line of the allocation once, in address order, and then fences |
| Occupancy.SetStride | include/occupancy_profile.h:40 | the stride between rows is a whole number of lines, one for each of the `sets` classes |
| Occupancy.ProbeLines | src/occupancy_profile.c:24 | the `l_prime` bound counts every warmup and occupation row: that many rows of `64 * sets` bytes are the whole allocation |
| Occupancy.PrimeEvents | include/occupancy_profile.h:45-57 | the prime's writes: one per warmup row, then one per occupation row, at stride `sets * 64` from each section start |
| Occupancy.PrimeEffect | include/occupancy_profile.h:45-57 | the memory after the prime: those bytes doubled modulo 256, in that order; memory keeps its size |
| Occupancy.RowLayout | include/occupancy_profile.h:40-55 | in rows of `sets * 64` bytes, the warmup section is `warmup_lines` rows and the occupation section is `cache_lines` rows, starting right after |
| Occupancy.PrimeSetWriteWithWarmup | include/occupancy_profile.h:35-58 | doubles the first byte of every warmup row, then of every occupation row, at stride `sets * 64`, logging one write each |
| Occupancy.PrimeEventsOneRun | include/occupancy_profile.h:45-57 | the prime is `warmup_lines + cache_lines` writes at one stride from the warmup start, with all warmup writes first |
| Occupancy.PrimeEffectOneRun | include/occupancy_profile.h:45-57 | the prime's memory effect is one strided doubling of `warmup_lines + cache_lines` bytes |
| Occupancy.ProbeAddress | src/occupancy_profile.c:27 | the probed address `warmup_start + s_prime * 64 + l_prime * 64 * sets` |
| Occupancy.ProbeLineNumber | src/occupancy_profile.c:27 | the probed address is `warmup_start + (l_prime * sets + s_prime) * 64` |
| Occupancy.PrimeWritesClassZero | include/occupancy_profile.h:41-55 | whatever set is passed, the `k`-th write of the prime is to line `(0, k)` |
| Occupancy.PrimeEffectAt | include/occupancy_profile.h:47-56 | the prime doubles exactly the bytes `warmup_start + k * sets * 64` for `k < warmup_lines + cache_lines`, and no other byte |
| Occupancy.ProbeAddressInAllocation | src/occupancy_profile.c:27 | every probed line is one of the `sets * (lines + warmup)` lines of the allocation and lies wholly inside it |
| Occupancy.Probes | src/occupancy_profile.c:16-24 | the probes of a run: iteration `0..N`, each followed by its target-set loop |
| Occupancy.TargetProbes | src/occupancy_profile.c:19-24 | the probes of one iteration: target set `0..S`, each followed by its `s_prime` loop |
| Occupancy.CandidateProbes | src/occupancy_profile.c:22-24 | the probes of one target set: `s_prime` in `0..S`, each followed by its `l_prime` loop |
| Occupancy.LineProbes | src/occupancy_profile.c:24 | the innermost loop makes one probe per row |
| Occupancy.CandidateProbesLength | src/occupancy_profile.c:22-24 | the `s_prime` loop makes `sets * lines` probes |
| Occupancy.TargetProbesLength | src/occupancy_profile.c:19-24 | one iteration makes `sets * sets * lines` probes |
| Occupancy.ProbesLength | src/occupancy_profile.c:16-24 | `n` iterations make `n * sets * sets * lines` probes |
| Occupancy.LineProbesMembers | src/occupancy_profile.c:24 | the innermost loop probes exactly the rows below its bound, for its fixed outer indices |
| Occupancy.CandidateProbesMembers | src/occupancy_profile.c:22-24 | the `s_prime` loop probes exactly the pairs `(s_prime, l_prime)` below its bounds |
| Occupancy.TargetProbesMembers | src/occupancy_profile.c:19-24 | one iteration probes exactly the triples `(set, s_prime, l_prime)` below its bounds |
| Occupancy.ProbesMembers | src/occupancy_profile.c:16-24 | a run probes exactly the tuples of `[0,N) x [0,S) x [0,S) x [0,A+W)`: a probe is made if and only if each of its indices is below its bound |
| Occupancy.ProbesLastIteration | src/occupancy_profile.c:16-24 | a probe of the first `i + 1` iterations is one of the first `i`, or one of iteration `i` |
| Occupancy.LineProbesIncreasing | src/occupancy_profile.c:24 | the innermost loop's probes are strictly increasing |
| Occupancy.CandidateProbesIncreasing | src/occupancy_profile.c:22-24 | the `s_prime` loop's probes are strictly increasing, `l_prime` fastest |
| Occupancy.TargetProbesIncreasing | src/occupancy_profile.c:19-24 | one iteration's probes are strictly increasing |
| Occupancy.ProbesIncreasing | src/occupancy_profile.c:16-24 | a run's probes are in strictly increasing lexicographic order of `(iter, set, s_prime, l_prime)`, `l_prime` fastest, so none repeats |
| Occupancy.ProbeCount | src/occupancy_profile.c:16-41 | a run makes `num_iterations * sets * sets * (lines + warmup)` probes |
| Occupancy.NoProbes | src/occupancy_profile.c:16-19 | with no iterations or no sets there are no probes |
| Occupancy.RecordOf | src/occupancy_profile.c:40-41 | the CSV record of a probe, columns in the order `set, iter, s_prime, l_prime, cycles` |
| Occupancy.ProbeEvents | src/occupancy_profile.c:27-42 | the events of one probe: the full flush, the prime, the timed read of the probed line, its record, a fence |
| Occupancy.ProfileEvents | src/occupancy_profile.c:16-43 | the events of a sequence of probes, each probe's events in turn |
| Occupancy.DoubleTimesVanishes | include/occupancy_profile.h:48 | a byte doubled eight times or more, modulo 256, is 0 |
| Occupancy.PrimeRepeatAt | include/occupancy_profile.h:47-56 | after `n` primes each primed byte has been doubled `n` times, and every other byte is unchanged |
| Occupancy.PrimedBytesVanish | src/occupancy_profile.c:33 | after eight or more probes every byte the prime writes is 0, and no other byte has changed |
| Occupancy.ProbeOnce | src/occupancy_profile.c:26-42 | one probe: a full flush of the eviction set, then the prime, then the timed read of line `(s_prime, l_prime)`, then its record, then a fence |
| Occupancy.ProbeCandidate | src/occupancy_profile.c:24-43 | the `l_prime` loop makes the probes `(iter, set, s_prime, 0..A+W)` in order, extending the log and memory accordingly |
| Occupancy.ProbeTargetSet | src/occupancy_profile.c:22-44 | the `s_prime` loop makes every probe of one target set in order |
| Occupancy.ProfileIteration | src/occupancy_profile.c:19-45 | the target-set loop makes every probe of one iteration in order |
| Occupancy.OccupancyProfile | src/occupancy_profile.c:9-50 | writes the header, then the events of every probe of the run in sweep order; memory is primed once per probe |
| Occupancy.RowsAppend | src/occupancy_profile.c:40-41 | the rows written by two stretches of events are the first stretch's rows followed by the second's |
| Occupancy.RowsOfNoEmit | src/occupancy_profile.c:30-36 | flushes, primes and timed reads write no row |
| Occupancy.RowsOfProbe | src/occupancy_profile.c:30-42 | one probe writes exactly one row, `(set, iter, s_prime, l_prime, cycles)` |
| Occupancy.RowsOfProfile | src/occupancy_profile.c:38-41 | the probes write one row each, in probe order, each with its own cycle count |
| Occupancy.ProfileOutput | src/occupancy_profile.c:13-41 | the CSV is the header, then `N * S * S * (A+W)` records, the `k`-th being the `k`-th probe of the sweep with its cycle count |
| Occupancy.ProfileOnlyHeader | src/occupancy_profile.c:13-19 | with no iterations or no sets, only the header is written and nothing else is issued |

Proof helpers have no row: `StrideLoopStep`, `StrideLoopExit`, `StrideBound`, `StrideMonotone`, `RowInSection`, `IncreasingAppend`, `MulSucc`, `ProductReassoc`, `ProbeMember` (the single-probe form of `ProbesMembers`), the `...Step` lemmas including `ProfileLineStep`, `ProfileEventsSnoc`, `ProfileMemoryStep`, `EventsAssoc`, `RowsOne` and `HeaderThenRecords`. They unfold a definition or do arithmetic for the lemmas and methods above.

## Left out

- The x86 primitives of include/utility.h (`rdtscp`, `lfence`, `mfence`, `clflush`) are opaque log events. Their effect on the caches, their ordering guarantees and their latency are not modelled.
- `read_timestamp` and the subtraction in `time_one_line_read_access` are not modelled. Each timed read returns an arbitrary `nat`, given as a function of the probe (`cycles: Probe -> nat`). Each probe is made once, so this is as general as any sequence of readings.
- `IsAllocationBase` (a `nat` multiple of 64 * 512) and `Address.AlignedAddressIsSetZeroBlockZero` (on `bv64`) are not connected by any lemma, because converting between `nat` and `bv64` is beyond what the solver proves within its limits.
- `mmap` and `munmap` are not modelled. The allocation is the `base` argument of `NewEvictionSet`, and the release is the region `FreeEvictionSet` returns.
- EvictionSets.NewEvictionSet: requires that the base is non-null and 2^15-aligned, as the source's comment claims the allocator guarantees. The source never checks for `MAP_FAILED`, so there is no error path to model.
- `size_t` wrap-around is not modelled. Sizes and addresses are unbounded `nat`, and `NewEvictionSet` requires that the allocation ends within the 64-bit address space.
- The CSV text formatting, `fopen`/`fclose`, write failures and any `printf` progress output are not modelled. The output is the sequence of `Row` values in the log.
- `occupancy_profile`'s four nested loops are four methods, one per loop (`OccupancyProfile`, `ProfileIteration`, `ProbeTargetSet`, `ProbeCandidate`), in the same order and with the same bounds.
- Occupancy.PrimeSetWriteWithWarmup: requires `setIndex < cacheSets`. The source accepts any `set`, but its only caller passes a set of the eviction set. Without this, a descriptor with no sets would have zero-byte sections, and the writes at their starts would fall outside them.
- Memory is one flat byte array indexed by address. Aliasing between the eviction set and other data is not modelled.
- The drivers (`naive_stride.c`, `latency.c`, `occupancy.c`), `plot.py` and the empty `retrain_prefetcher` stub of include/prefetcher.h are not part of this model.
- The constants `L1_SIZE`, `L2_SIZE`, `L2_SETS` and `L2_ASSOCIATIVITY` are declared but used by no modelled operation.
