/**
 * The line-stride buffer walkers of include/cache.h. Each walks a buffer
 * with a byte offset `i` that starts at 0 and grows by the line size (or a
 * multiple of it) while it stays below a bound, and at every offset
 * flushes, reads, or increments the byte `start + i`.
 *
 * Each walker is specified by two functions of its arguments: `Sweep`, the
 * events it appends to the machine's log, and `Touch`, the memory it leaves
 * behind. The lemmas after them say what those functions mean: which
 * addresses, in which order, and which bytes change.
 */
module Cache {
  import opened Platform

  const CACHE_LINE_SIZE: nat := 64
  const L1_SIZE: nat := 32768
  const L2_SIZE: nat := 262144
  const L2_SETS: nat := 512
  const L2_ASSOCIATIVITY: nat := 8

  /** The number of iterations of `for (i = 0; i < length; i += 64)`: the
      number of lines that a buffer of `length` bytes starts in. */
  function LineCount(length: nat): (n: nat)
    ensures n * CACHE_LINE_SIZE - CACHE_LINE_SIZE < length <= n * CACHE_LINE_SIZE
  {
    (length + CACHE_LINE_SIZE - 1) / CACHE_LINE_SIZE
  }

  /** A buffer of whole lines starts in exactly that many lines. */
  lemma LineCountOfLines(n: nat)
    ensures LineCount(n * CACHE_LINE_SIZE) == n
  {
  }

  /** The address of the `k`-th line visited by a walk from `start`. */
  function LineAddr(start: nat, step: nat, k: nat): nat
  {
    start + k * step
  }

  /** The events of a walk that applies `op` to `n` lines, `step` bytes
      apart, beginning at `start`. */
  function Sweep(op: LineOp, start: nat, step: nat, n: nat): (r: seq<Event>)
    ensures |r| == n
    decreases n
  {
    if n == 0 then []
    else Sweep(op, start, step, n - 1) + [Line(op, LineAddr(start, step, n - 1))]
  }

  /** The `k`-th event of a walk is `op` on the `k`-th line: the walk visits
      its lines in increasing order, once each, and issues nothing else. */
  lemma {:induction false} SweepAt(op: LineOp, start: nat, step: nat, n: nat, k: nat)
    requires k < n
    ensures Sweep(op, start, step, n)[k] == Line(op, start + k * step)
  {
    if k < n - 1 {
      SweepAt(op, start, step, n - 1, k);
    }
  }

  /** A walk of `a + b` lines is a walk of `a` lines followed by a walk of
      `b` lines from where the first one stopped. */
  lemma {:induction false} SweepSplit(op: LineOp, start: nat, step: nat, a: nat, b: nat)
    ensures Sweep(op, start, step, a) + Sweep(op, start + a * step, step, b)
         == Sweep(op, start, step, a + b)
  {
    if b > 0 {
      SweepSplit(op, start, step, a, b - 1);
      assert LineAddr(start + a * step, step, b - 1) == LineAddr(start, step, a + b - 1) by {
        assert a * step + (b - 1) * step == (a + b - 1) * step;
      }
    }
  }

  /** A walk contains no fence, no timed read and no output row. */
  lemma {:induction false} SweepOnlyLines(op: LineOp, start: nat, step: nat, n: nat)
    ensures forall e | e in Sweep(op, start, step, n) :: e.Line? && e.op == op
  {
    if n > 0 {
      SweepOnlyLines(op, start, step, n - 1);
    }
  }

  /** Memory after applying `c` to the byte at each of `n` lines, `step`
      bytes apart, from `start`, in that order. An address past the end of
      memory is skipped; the walkers never produce one. */
  function Touch(m: seq<bv8>, start: nat, step: nat, n: nat, c: Change): (r: seq<bv8>)
    ensures |r| == |m|
    decreases n
  {
    if n == 0 then m
    else
      var prev := Touch(m, start, step, n - 1, c);
      var a := LineAddr(start, step, n - 1);
      if a < |prev| then prev[a := Apply(c, prev[a])] else prev
  }

  /** Whether `j` is one of the first `n` addresses `start + k * step`. */
  predicate OnStride(start: nat, step: nat, n: nat, j: nat)
  {
    exists k: nat :: k < n && j == LineAddr(start, step, k)
  }

  /** Multiplying by a positive stride keeps the order of line numbers. */
  lemma {:induction false} StrideMonotone(k: nat, n: nat, step: nat)
    requires step > 0
    ensures k < n <==> k * step < n * step
    decreases if k < n then n - k else k - n
  {
    if k + 1 < n {
      StrideMonotone(k, n - 1, step);
      assert (n - 1) * step + step == n * step;
    } else if n + 1 < k {
      StrideMonotone(k - 1, n, step);
      assert (k - 1) * step + step == k * step;
    } else if k + 1 == n {
      assert k * step + step == n * step;
    } else if n + 1 == k {
      assert n * step + step == k * step;
    }
  }

  /** With a positive stride, a strided update changes exactly the bytes at
      `start + k * step` for `k < n`, each once, and leaves every other byte
      as it was. */
  lemma {:induction false} TouchAt(m: seq<bv8>, start: nat, step: nat, n: nat, c: Change, j: nat)
    requires step > 0 && j < |m|
    ensures Touch(m, start, step, n, c)[j] == if OnStride(start, step, n, j) then Apply(c, m[j]) else m[j]
  {
    if n > 0 {
      TouchAt(m, start, step, n - 1, c, j);
      var a := LineAddr(start, step, n - 1);
      if j == a {
        if OnStride(start, step, n - 1, j) {
          var k: nat :| k < n - 1 && j == LineAddr(start, step, k);
          StrideMonotone(k, n - 1, step);
          assert false;
        }
        assert OnStride(start, step, n, j);
      } else {
        if OnStride(start, step, n, j) {
          var k: nat :| k < n && j == LineAddr(start, step, k);
          assert k < n - 1;
        }
        assert OnStride(start, step, n, j) == OnStride(start, step, n - 1, j);
      }
    }
  }

  /** For a buffer walk (`write_buffer` and the other walkers bounded by a
      length), the bytes that change are exactly those at a multiple of 64
      bytes from `start` and below `start + length`. */
  lemma BufferTouchAt(m: seq<bv8>, start: nat, length: nat, c: Change, j: nat)
    requires j < |m|
    ensures Touch(m, start, CACHE_LINE_SIZE, LineCount(length), c)[j]
         == if start <= j < start + length && (j - start) % CACHE_LINE_SIZE == 0
            then Apply(c, m[j]) else m[j]
  {
    var n := LineCount(length);
    TouchAt(m, start, CACHE_LINE_SIZE, n, c, j);
    if start <= j < start + length && (j - start) % CACHE_LINE_SIZE == 0 {
      var k: nat := (j - start) / CACHE_LINE_SIZE;
      assert k < n && j == LineAddr(start, CACHE_LINE_SIZE, k);
    }
  }

  /** A strided update of `a + b` lines is an update of `a` lines followed
      by an update of `b` lines from where the first one stopped. */
  lemma {:induction false} TouchSplit(m: seq<bv8>, start: nat, step: nat, a: nat, b: nat, c: Change)
    ensures Touch(Touch(m, start, step, a, c), start + a * step, step, b, c)
         == Touch(m, start, step, a + b, c)
  {
    if b > 0 {
      TouchSplit(m, start, step, a, b - 1, c);
      assert LineAddr(start + a * step, step, b - 1) == LineAddr(start, step, a + b - 1) by {
        assert a * step + (b - 1) * step == (a + b - 1) * step;
      }
    }
  }

  /** `flush_buffer`: flushes every line the buffer starts in, then one
      fence. */
  method FlushBuffer(m: Machine, start: nat, length: nat)
    requires start + length <= m.mem.Length
    modifies m
    ensures m.trace == old(m.trace) + Sweep(Flush, start, CACHE_LINE_SIZE, LineCount(length)) + [Fence]
  {
    FlushBufferUnfenced(m, start, length);
    m.MemoryFence();
  }

  /** `flush_buffer_unfenced`: the same flushes, and no fence. */
  method FlushBufferUnfenced(m: Machine, start: nat, length: nat)
    requires start + length <= m.mem.Length
    modifies m
    ensures m.trace == old(m.trace) + Sweep(Flush, start, CACHE_LINE_SIZE, LineCount(length))
  {
    var i := 0;
    ghost var k := 0;
    while i < length
      invariant i == k * CACHE_LINE_SIZE
      invariant k == 0 || i - CACHE_LINE_SIZE < length
      invariant m.trace == old(m.trace) + Sweep(Flush, start, CACHE_LINE_SIZE, k)
    {
      m.Clflush(start + i);
      i, k := i + CACHE_LINE_SIZE, k + 1;
    }
  }

  /** `read_buffer`: one volatile load per line; memory is unchanged. */
  method ReadBuffer(m: Machine, start: nat, length: nat)
    requires start + length <= m.mem.Length
    modifies m
    ensures m.trace == old(m.trace) + Sweep(Read, start, CACHE_LINE_SIZE, LineCount(length))
    ensures m.mem[..] == old(m.mem[..])
  {
    var i := 0;
    ghost var k := 0;
    while i < length
      invariant i == k * CACHE_LINE_SIZE
      invariant k == 0 || i - CACHE_LINE_SIZE < length
      invariant m.trace == old(m.trace) + Sweep(Read, start, CACHE_LINE_SIZE, k)
    {
      m.Load(start + i);
      i, k := i + CACHE_LINE_SIZE, k + 1;
    }
  }

  /** `read_lines`: one volatile load in each of `numLines` consecutive
      lines; returns the address just past them. */
  method ReadLines(m: Machine, start: nat, numLines: nat) returns (next: nat)
    requires start + numLines * CACHE_LINE_SIZE <= m.mem.Length
    modifies m
    ensures m.trace == old(m.trace) + Sweep(Read, start, CACHE_LINE_SIZE, numLines)
    ensures m.mem[..] == old(m.mem[..])
    ensures next == start + numLines * CACHE_LINE_SIZE
  {
    var i := 0;
    ghost var k := 0;
    while i < numLines * CACHE_LINE_SIZE
      invariant i == k * CACHE_LINE_SIZE && k <= numLines
      invariant m.trace == old(m.trace) + Sweep(Read, start, CACHE_LINE_SIZE, k)
    {
      m.Load(start + i);
      i, k := i + CACHE_LINE_SIZE, k + 1;
    }
    next := start + numLines * CACHE_LINE_SIZE;
  }

  /** `write_buffer`: increments the byte at each line offset below
      `length`; returns the address just past the buffer. */
  method WriteBuffer(m: Machine, start: nat, length: nat) returns (next: nat)
    requires start + length <= m.mem.Length
    modifies m, m.mem
    ensures m.mem[..] == Touch(old(m.mem[..]), start, CACHE_LINE_SIZE, LineCount(length), Increment)
    ensures m.trace == old(m.trace) + Sweep(Modify, start, CACHE_LINE_SIZE, LineCount(length))
    ensures next == start + length
  {
    var i := 0;
    ghost var k := 0;
    while i < length
      invariant i == k * CACHE_LINE_SIZE
      invariant k == 0 || i - CACHE_LINE_SIZE < length
      invariant m.mem[..] == Touch(old(m.mem[..]), start, CACHE_LINE_SIZE, k, Increment)
      invariant m.trace == old(m.trace) + Sweep(Modify, start, CACHE_LINE_SIZE, k)
    {
      m.ReadModifyWrite(start + i, Increment);
      i, k := i + CACHE_LINE_SIZE, k + 1;
    }
    next := start + length;
  }

  /** `write_lines`: increments one byte in each of `numLines` consecutive
      lines; returns the address just past them. */
  method WriteLines(m: Machine, start: nat, numLines: nat) returns (next: nat)
    requires start + numLines * CACHE_LINE_SIZE <= m.mem.Length
    modifies m, m.mem
    ensures m.mem[..] == Touch(old(m.mem[..]), start, CACHE_LINE_SIZE, numLines, Increment)
    ensures m.trace == old(m.trace) + Sweep(Modify, start, CACHE_LINE_SIZE, numLines)
    ensures next == start + numLines * CACHE_LINE_SIZE
  {
    var maxIndex := numLines * CACHE_LINE_SIZE;
    var i := 0;
    ghost var k := 0;
    while i < maxIndex
      invariant i == k * CACHE_LINE_SIZE && k <= numLines
      invariant m.mem[..] == Touch(old(m.mem[..]), start, CACHE_LINE_SIZE, k, Increment)
      invariant m.trace == old(m.trace) + Sweep(Modify, start, CACHE_LINE_SIZE, k)
    {
      m.ReadModifyWrite(start + i, Increment);
      i, k := i + CACHE_LINE_SIZE, k + 1;
    }
    next := start + maxIndex;
  }

  /** The number of iterations of the loop in `write_lines_stride`: none at
      all when the stride is 0, because its bound is then 0. */
  function StrideIterations(numLines: nat, stride: nat): (n: nat)
    ensures n * stride == numLines * stride
    ensures stride > 0 ==> n == numLines
    ensures stride == 0 ==> n == 0
  {
    if stride == 0 then 0 else numLines
  }

  /** The loop bound of `write_lines_stride` is its iteration count times
      its stride in bytes. */
  lemma StrideBound(numLines: nat, stride: nat)
    ensures numLines * CACHE_LINE_SIZE * stride
         == StrideIterations(numLines, stride) * (stride * CACHE_LINE_SIZE)
  {
    if stride != 0 {
      assert numLines * CACHE_LINE_SIZE * stride == numLines * (stride * CACHE_LINE_SIZE);
    }
  }

  /** `StrideIterations` counts exactly the offsets `k * stride * 64` that
      the loop of `write_lines_stride` visits below its bound
      `numLines * 64 * stride`. */
  lemma StrideIterationsCountsOffsets(numLines: nat, stride: nat, k: nat)
    ensures k < StrideIterations(numLines, stride)
        <==> k * (stride * CACHE_LINE_SIZE) < numLines * CACHE_LINE_SIZE * stride
  {
    StrideBound(numLines, stride);
    if stride > 0 {
      StrideMonotone(k, numLines, stride * CACHE_LINE_SIZE);
    }
  }

  /** One more turn of a loop whose offset `i` is `k` strides: the stride is
      positive, the count is still below `n`, and the next offset is `k + 1`
      strides. */
  lemma StrideLoopStep(i: nat, k: nat, n: nat, step: nat)
    requires i == k * step && i < n * step
    ensures step > 0 && k < n && i + step == (k + 1) * step
  {
    assert step != 0;
    StrideMonotone(k, n, step);
  }

  /** A loop whose offset `i` is `k <= n` strides stops at `i >= n` strides
      only after exactly `n` turns (or at once, when the stride is 0 and so
      is `n`). */
  lemma StrideLoopExit(i: nat, k: nat, n: nat, step: nat)
    requires i == k * step && k <= n && i >= n * step && (step == 0 ==> n == 0)
    ensures k == n
  {
    if step > 0 {
      StrideMonotone(k, n, step);
    }
  }

  /** `write_lines` is `write_lines_stride` with a stride of one line: the
      same bytes change, the same writes are issued in the same order, and
      the same address is returned. */
  lemma WriteLinesIsStrideOne(m: seq<bv8>, start: nat, numLines: nat)
    ensures Touch(m, start, 1 * CACHE_LINE_SIZE, StrideIterations(numLines, 1), Increment)
         == Touch(m, start, CACHE_LINE_SIZE, numLines, Increment)
    ensures Sweep(Modify, start, 1 * CACHE_LINE_SIZE, StrideIterations(numLines, 1))
         == Sweep(Modify, start, CACHE_LINE_SIZE, numLines)
    ensures start + numLines * CACHE_LINE_SIZE * 1 == start + numLines * CACHE_LINE_SIZE
  {
  }

  /** With a stride of 0, `write_lines_stride` changes no byte and issues
      nothing. */
  lemma StrideZeroTouchesNothing(m: seq<bv8>, start: nat, numLines: nat)
    ensures Touch(m, start, 0 * CACHE_LINE_SIZE, StrideIterations(numLines, 0), Increment) == m
    ensures Sweep(Modify, start, 0 * CACHE_LINE_SIZE, StrideIterations(numLines, 0)) == []
  {
  }

  /** `write_lines_stride`: increments one byte in every `stride`-th line,
      `numLines` times; returns the address `numLines * stride` lines on. */
  method WriteLinesStride(m: Machine, start: nat, numLines: nat, stride: nat) returns (next: nat)
    requires start + numLines * CACHE_LINE_SIZE * stride <= m.mem.Length
    modifies m, m.mem
    ensures m.mem[..] == Touch(old(m.mem[..]), start, stride * CACHE_LINE_SIZE,
                               StrideIterations(numLines, stride), Increment)
    ensures m.trace == old(m.trace) + Sweep(Modify, start, stride * CACHE_LINE_SIZE,
                                            StrideIterations(numLines, stride))
    ensures next == start + numLines * CACHE_LINE_SIZE * stride
  {
    var maxIndex := numLines * CACHE_LINE_SIZE * stride;
    var step := stride * CACHE_LINE_SIZE;
    ghost var n := StrideIterations(numLines, stride);
    StrideBound(numLines, stride);
    var i := 0;
    ghost var k := 0;
    while i < maxIndex
      invariant i == k * step && k <= n
      invariant m.mem[..] == Touch(old(m.mem[..]), start, step, k, Increment)
      invariant m.trace == old(m.trace) + Sweep(Modify, start, step, k)
      decreases n - k
    {
      StrideLoopStep(i, k, n, step);
      m.ReadModifyWrite(start + i, Increment);
      i, k := i + step, k + 1;
    }
    StrideLoopExit(i, k, n, step);
    next := start + maxIndex;
  }
}
