/**
 * The machine the profiler runs on, reduced to what the profiler can
 * observe or change: a flat byte-addressed memory and the ordered log of
 * memory-system operations it issues. The x86 instructions (clflush,
 * mfence/lfence, rdtscp) are opaque: each becomes one event in the log.
 * The CSV rows the profiler writes go into the same log, so that their
 * position relative to fences and timed reads is visible.
 */
module Platform {

  /** A per-line operation issued by the buffer walkers. `Modify` is a
      read-modify-write of one byte through a volatile pointer. */
  datatype LineOp = Flush | Read | Modify

  /** One row of the CSV output. Data rows keep the column order of the
      header `Set,Iteration,SPrime,LPrime,Cycles`. */
  datatype Row =
    | Header
    | Record(targetSet: nat, iteration: nat, sPrime: nat, lPrime: nat, cycles: nat)

  datatype Event =
    | Line(op: LineOp, addr: nat)
    | Fence
    | TimedRead(addr: nat, cycles: nat)
    | Emit(row: Row)

  /** The two read-modify-write updates applied to a byte: `*p = *p + 1`
      and `*p = *p * 2`, both truncated to 8 bits on the store. */
  datatype Change = Increment | Double

  function Apply(c: Change, b: bv8): (r: bv8)
    ensures c == Increment ==> (r as int) == (b as int + 1) % 256
    ensures c == Double ==> (r as int) == (b as int * 2) % 256
  {
    match c
    case Increment => IncrementModulo(b); b + 1
    case Double => DoubleModulo(b); b * 2
  }

  lemma IncrementModulo(b: bv8)
    ensures ((b + 1) as int) == (b as int + 1) % 256
  {
    var x := b as int + 1;
    if b == 255 {
      ModuloOnce(x);
    } else {
      assert (b + 1) as int == x;
      ModuloBelow(x);
    }
  }

  lemma DoubleModulo(b: bv8)
    ensures ((b * 2) as int) == (b as int * 2) % 256
  {
    var x := b as int * 2;
    assert b * 2 == b + b;
    if b < 128 {
      assert (b + b) as int == x;
      ModuloBelow(x);
    } else {
      var h := b - 128;
      assert b + b == h + h;
      assert (h + h) as int == h as int + h as int;
      assert b as int == h as int + 128;
      ModuloOnce(x);
    }
  }

  lemma ModuloBelow(x: int)
    requires 0 <= x < 256
    ensures x % 256 == x
  {
  }

  lemma ModuloOnce(x: int)
    requires 256 <= x < 512
    ensures x % 256 == x - 256
  {
  }

  class Machine {
    /** All addressable memory; an address is an index into it. */
    const mem: array<bv8>
    /** Everything issued so far, oldest first. */
    var trace: seq<Event>

    constructor (memory: array<bv8>)
      ensures mem == memory && trace == []
    {
      mem := memory;
      trace := [];
    }

    /** `clflush`: evicts the line holding `addr` from every cache level. */
    method Clflush(addr: nat)
      requires addr < mem.Length
      modifies this
      ensures trace == old(trace) + [Line(Flush, addr)]
    {
      trace := trace + [Line(Flush, addr)];
    }

    /** A volatile one-byte load whose value is discarded. */
    method Load(addr: nat)
      requires addr < mem.Length
      modifies this
      ensures trace == old(trace) + [Line(Read, addr)]
    {
      trace := trace + [Line(Read, addr)];
    }

    /** A volatile read-modify-write of the byte at `addr`. */
    method ReadModifyWrite(addr: nat, c: Change)
      requires addr < mem.Length
      modifies this, mem
      ensures mem[..] == old(mem[..])[addr := Apply(c, old(mem[addr]))]
      ensures trace == old(trace) + [Line(Modify, addr)]
    {
      mem[addr] := Apply(c, mem[addr]);
      trace := trace + [Line(Modify, addr)];
    }

    /** `fence()`: an `mfence` followed by an `lfence`. */
    method MemoryFence()
      modifies this
      ensures trace == old(trace) + [Fence]
    {
      trace := trace + [Fence];
    }

    /** A timed read of `addr`; the cycle count is whatever the hardware
        reports and is supplied by the caller. */
    method TimedReadAccess(addr: nat, cycles: nat) returns (elapsed: nat)
      requires addr < mem.Length
      modifies this
      ensures elapsed == cycles
      ensures trace == old(trace) + [TimedRead(addr, cycles)]
    {
      trace := trace + [TimedRead(addr, cycles)];
      elapsed := cycles;
    }

    /** Appends one row to the CSV output. */
    method WriteRow(row: Row)
      modifies this
      ensures trace == old(trace) + [Emit(row)]
    {
      trace := trace + [Emit(row)];
    }
  }
}
