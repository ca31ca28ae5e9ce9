/**
 * Priming (include/occupancy_profile.h) and the occupancy sweep
 * (src/occupancy_profile.c).
 *
 * The sweep visits every probe `(iteration, targetSet, sPrime, lPrime)` in
 * the order of its four nested loops, `lPrime` innermost. For each probe
 * it flushes the whole eviction set, primes it, times one read of line
 * `(sPrime, lPrime)`, writes one CSV row and fences. The order of the
 * probes is given by `Probes`, built level by level like the loops; the
 * events of a run by `ProfileEvents`; the lemmas state what these promise:
 * how many rows, in which order, covering which probes, reading which
 * addresses.
 *
 * Both functions follow the code where its comments say otherwise:
 * `PrimeSetWriteWithWarmup` never adds the offset of the target set it is
 * given, so it writes the lines of class 0 of every row whatever that set
 * is (PrimeWritesClassZero); and `lPrime`, not `sPrime`, changes fastest
 * in the output.
 */
module Occupancy {
  import opened Platform
  import opened Cache
  import opened EvictionSets

  /** Bytes between two lines of the same class in consecutive rows: a row
      is a whole number of lines, one for each of the `cacheSets` classes. */
  function SetStride(es: EvictionSet): (r: nat)
    ensures r % CACHE_LINE_SIZE == 0 && r / CACHE_LINE_SIZE == es.cacheSets
  {
    es.cacheSets * CACHE_LINE_SIZE
  }

  /** The number of rows a probe can pick a line from: every warmup and
      every occupation row, which together are the whole allocation. */
  function ProbeLines(es: EvictionSet): (r: nat)
    ensures AllocationSize(es.cacheSets, es.cacheLines, es.warmupLines) == CACHE_LINE_SIZE * es.cacheSets * r
  {
    assert CACHE_LINE_SIZE * es.cacheSets * (es.cacheLines + es.warmupLines)
        == CACHE_LINE_SIZE * es.cacheSets * es.warmupLines + CACHE_LINE_SIZE * es.cacheSets * es.cacheLines;
    es.cacheLines + es.warmupLines
  }

  /** The address the sweep probes for line `(sPrime, lPrime)`. */
  function ProbeAddress(es: EvictionSet, sPrime: nat, lPrime: nat): nat
  {
    es.warmupSection.startAddr + sPrime * CACHE_LINE_SIZE + lPrime * CACHE_LINE_SIZE * es.cacheSets
  }

  /** The events of prime_set_write_with_warmup: a read-modify-write of the
      first byte of each warmup row, then of each occupation row. */
  function PrimeEvents(es: EvictionSet): seq<Event>
  {
    Sweep(Modify, es.warmupSection.startAddr, SetStride(es), es.warmupLines)
    + Sweep(Modify, es.occupationSection.startAddr, SetStride(es), es.cacheLines)
  }

  /** Memory after prime_set_write_with_warmup: each of those bytes
      doubled, modulo 256. */
  function PrimeEffect(es: EvictionSet, m: seq<bv8>): (r: seq<bv8>)
    ensures |r| == |m|
  {
    Touch(Touch(m, es.warmupSection.startAddr, SetStride(es), es.warmupLines, Double),
          es.occupationSection.startAddr, SetStride(es), es.cacheLines, Double)
  }

  /** A well-formed descriptor counted in rows of `SetStride` bytes: the
      warmup section is `warmupLines` rows, the occupation section
      `cacheLines` rows and starts right after the warmup rows. */
  lemma RowLayout(es: EvictionSet)
    requires WellFormed(es)
    ensures es.warmupSection.size == es.warmupLines * SetStride(es)
    ensures es.occupationSection.size == es.cacheLines * SetStride(es)
    ensures es.occupationSection.startAddr == es.warmupSection.startAddr + es.warmupLines * SetStride(es)
    ensures es.warmupSection.size + es.occupationSection.size == ProbeLines(es) * SetStride(es)
  {
    var s := SetStride(es);
    assert CACHE_LINE_SIZE * es.cacheSets * es.warmupLines == es.warmupLines * s;
    assert CACHE_LINE_SIZE * es.cacheSets * es.cacheLines == es.cacheLines * s;
    assert es.warmupLines * s + es.cacheLines * s == (es.cacheLines + es.warmupLines) * s;
  }

  /** Row `line < rows` of a section of `rows` rows lies inside it. */
  lemma RowInSection(es: EvictionSet, line: nat, rows: nat)
    requires es.cacheSets > 0 && line < rows
    ensures line * SetStride(es) + 1 <= rows * SetStride(es)
  {
    var s := SetStride(es);
    if line + 1 < rows {
      StrideMonotone(line + 1, rows, s);
    }
    assert line * s + s == (line + 1) * s;
  }

  /** `prime_set_write_with_warmup`: doubles the first byte of every warmup
      row, then of every occupation row. `setIndex` only feeds an offset
      that no address includes, so neither postcondition depends on it;
      it is required to be a set of `es`, which is what keeps the writes
      inside the allocation when `es` has no sets. */
  method PrimeSetWriteWithWarmup(m: Machine, es: EvictionSet, setIndex: nat)
    requires WellFormed(es) && InMemory(es, m.mem.Length)
    requires setIndex < es.cacheSets
    modifies m, m.mem
    ensures m.mem[..] == PrimeEffect(es, old(m.mem[..]))
    ensures m.trace == old(m.trace) + PrimeEvents(es)
  {
    var setStride := es.cacheSets * CACHE_LINE_SIZE;
    var offset := setIndex * CACHE_LINE_SIZE;
    RowLayout(es);
    ghost var m0 := m.mem[..];
    ghost var t0 := m.trace;

    for line := 0 to es.warmupLines
      invariant m.mem[..] == Touch(m0, es.warmupSection.startAddr, setStride, line, Double)
      invariant m.trace == t0 + Sweep(Modify, es.warmupSection.startAddr, setStride, line)
    {
      RowInSection(es, line, es.warmupLines);
      var addr := es.warmupSection.startAddr + line * setStride;
      m.ReadModifyWrite(addr, Double);
    }

    ghost var m1 := m.mem[..];
    ghost var t1 := m.trace;
    for line := 0 to es.cacheLines
      invariant m.mem[..] == Touch(m1, es.occupationSection.startAddr, setStride, line, Double)
      invariant m.trace == t1 + Sweep(Modify, es.occupationSection.startAddr, setStride, line)
    {
      RowInSection(es, line, es.cacheLines);
      var addr := es.occupationSection.startAddr + line * setStride;
      m.ReadModifyWrite(addr, Double);
    }
  }

  /** On a well-formed descriptor the warmup rows and the occupation rows
      are one run: priming writes `warmupLines + cacheLines` lines, one
      stride apart from the warmup start, all warmup rows first. */
  lemma PrimeEventsOneRun(es: EvictionSet)
    requires WellFormed(es)
    ensures PrimeEvents(es)
         == Sweep(Modify, es.warmupSection.startAddr, SetStride(es), es.warmupLines + es.cacheLines)
  {
    RowLayout(es);
    SweepSplit(Modify, es.warmupSection.startAddr, SetStride(es), es.warmupLines, es.cacheLines);
  }

  /** The memory side of PrimeEventsOneRun: one strided doubling of
      `warmupLines + cacheLines` bytes. */
  lemma PrimeEffectOneRun(es: EvictionSet, m: seq<bv8>)
    requires WellFormed(es)
    ensures PrimeEffect(es, m)
         == Touch(m, es.warmupSection.startAddr, SetStride(es), es.warmupLines + es.cacheLines, Double)
  {
    RowLayout(es);
    TouchSplit(m, es.warmupSection.startAddr, SetStride(es), es.warmupLines, es.cacheLines, Double);
  }

  /** The address of line `(sPrime, lPrime)`: line number `lPrime *
      cacheSets + sPrime` of the allocation, counted from the warmup
      start. */
  lemma ProbeLineNumber(es: EvictionSet, sPrime: nat, lPrime: nat)
    ensures ProbeAddress(es, sPrime, lPrime)
         == es.warmupSection.startAddr + (lPrime * es.cacheSets + sPrime) * CACHE_LINE_SIZE
    ensures lPrime * CACHE_LINE_SIZE * es.cacheSets == lPrime * SetStride(es)
  {
    assert lPrime * CACHE_LINE_SIZE * es.cacheSets == (lPrime * es.cacheSets) * CACHE_LINE_SIZE;
    assert lPrime * CACHE_LINE_SIZE * es.cacheSets == lPrime * (es.cacheSets * CACHE_LINE_SIZE);
  }

  /** Whatever set it is asked to prime, priming writes, in order, the line
      `(0, k)` of every row `k`: the lines of class 0, the ones the sweep
      probes with `sPrime == 0`. */
  lemma PrimeWritesClassZero(es: EvictionSet, k: nat)
    requires WellFormed(es) && k < es.warmupLines + es.cacheLines
    ensures |PrimeEvents(es)| == es.warmupLines + es.cacheLines
    ensures PrimeEvents(es)[k] == Line(Modify, ProbeAddress(es, 0, k))
  {
    PrimeEventsOneRun(es);
    SweepAt(Modify, es.warmupSection.startAddr, SetStride(es), es.warmupLines + es.cacheLines, k);
    ProbeLineNumber(es, 0, k);
  }

  /** Priming doubles exactly the bytes `warmupStart + k * cacheSets * 64`
      for `k < warmupLines + cacheLines`, and leaves every other byte as it
      was. */
  lemma PrimeEffectAt(es: EvictionSet, m: seq<bv8>, j: nat)
    requires WellFormed(es) && es.cacheSets > 0 && j < |m|
    ensures PrimeEffect(es, m)[j]
         == if OnStride(es.warmupSection.startAddr, SetStride(es), es.warmupLines + es.cacheLines, j)
            then Apply(Double, m[j]) else m[j]
  {
    PrimeEffectOneRun(es, m);
    TouchAt(m, es.warmupSection.startAddr, SetStride(es), es.warmupLines + es.cacheLines, Double, j);
  }

  /** Every probed line is one of the `cacheSets * (cacheLines +
      warmupLines)` lines of the allocation, so the whole line lies inside
      it. */
  lemma ProbeAddressInAllocation(es: EvictionSet, sPrime: nat, lPrime: nat)
    requires WellFormed(es)
    requires sPrime < es.cacheSets && lPrime < ProbeLines(es)
    ensures ProbeAddress(es, sPrime, lPrime)
         == es.warmupSection.startAddr + (lPrime * es.cacheSets + sPrime) * CACHE_LINE_SIZE
    ensures lPrime * es.cacheSets + sPrime < es.cacheSets * ProbeLines(es)
    ensures ProbeAddress(es, sPrime, lPrime) + CACHE_LINE_SIZE
         <= es.warmupSection.startAddr + es.warmupSection.size + es.occupationSection.size
  {
    var s, lines := es.cacheSets, ProbeLines(es);
    ProbeLineNumber(es, sPrime, lPrime);
    if lPrime + 1 < lines {
      StrideMonotone(lPrime + 1, lines, s);
    }
    assert lPrime * s + s == (lPrime + 1) * s;
    assert lines * s == s * lines;
    var n := lPrime * s + sPrime;
    assert n + 1 <= s * lines;
    RowLayout(es);
    assert lines * SetStride(es) == (s * lines) * CACHE_LINE_SIZE;
  }

  // ----- the order of the probes -----

  datatype Probe = Probe(iteration: nat, targetSet: nat, sPrime: nat, lPrime: nat)

  /** The probes of the innermost loop: `lPrime` from 0 below `n`. */
  function LineProbes(iteration: nat, targetSet: nat, sPrime: nat, n: nat): (r: seq<Probe>)
    ensures |r| == n
    decreases n
  {
    if n == 0 then []
    else LineProbes(iteration, targetSet, sPrime, n - 1) + [Probe(iteration, targetSet, sPrime, n - 1)]
  }

  /** The probes of the `sPrime` loop: `sPrime` from 0 below `n`. */
  function CandidateProbes(iteration: nat, targetSet: nat, lines: nat, n: nat): seq<Probe>
    decreases n
  {
    if n == 0 then []
    else CandidateProbes(iteration, targetSet, lines, n - 1) + LineProbes(iteration, targetSet, n - 1, lines)
  }

  /** The probes of the target-set loop: `targetSet` from 0 below `n`. */
  function TargetProbes(iteration: nat, sets: nat, lines: nat, n: nat): seq<Probe>
    decreases n
  {
    if n == 0 then []
    else TargetProbes(iteration, sets, lines, n - 1) + CandidateProbes(iteration, n - 1, lines, sets)
  }

  /** All probes of a run of `n` iterations, in the order they are made. */
  function Probes(sets: nat, lines: nat, n: nat): seq<Probe>
    decreases n
  {
    if n == 0 then []
    else Probes(sets, lines, n - 1) + TargetProbes(n - 1, sets, lines, sets)
  }

  /** Lexicographic order on `(iteration, targetSet, sPrime, lPrime)`. */
  predicate Before(p: Probe, q: Probe)
  {
    || p.iteration < q.iteration
    || (p.iteration == q.iteration && p.targetSet < q.targetSet)
    || (p.iteration == q.iteration && p.targetSet == q.targetSet && p.sPrime < q.sPrime)
    || (p.iteration == q.iteration && p.targetSet == q.targetSet && p.sPrime == q.sPrime && p.lPrime < q.lPrime)
  }

  /** Strictly increasing: in particular no probe appears twice. */
  predicate Increasing(ps: seq<Probe>)
  {
    forall i, j | 0 <= i < j < |ps| :: Before(ps[i], ps[j])
  }

  lemma IncreasingAppend(a: seq<Probe>, b: seq<Probe>)
    requires Increasing(a) && Increasing(b)
    requires forall p, q | p in a && q in b :: Before(p, q)
    ensures Increasing(a + b)
  {
    forall i, j | 0 <= i < j < |a + b|
      ensures Before((a + b)[i], (a + b)[j])
    {
      if j < |a| {
        assert (a + b)[i] == a[i] && (a + b)[j] == a[j];
      } else if i >= |a| {
        assert (a + b)[i] == b[i - |a|] && (a + b)[j] == b[j - |a|];
      } else {
        assert (a + b)[i] in a && (a + b)[j] in b;
      }
    }
  }

  lemma MulSucc(i: nat, k: nat)
    ensures i * k + k == (i + 1) * k
  {
  }

  lemma {:induction false} CandidateProbesLength(iteration: nat, targetSet: nat, lines: nat, n: nat)
    ensures |CandidateProbes(iteration, targetSet, lines, n)| == n * lines
  {
    if n > 0 {
      var i := n - 1;
      CandidateProbesLength(iteration, targetSet, lines, i);
      assert CandidateProbes(iteration, targetSet, lines, i + 1)
          == CandidateProbes(iteration, targetSet, lines, i) + LineProbes(iteration, targetSet, i, lines);
      MulSucc(i, lines);
    }
  }

  lemma {:induction false} TargetProbesLength(iteration: nat, sets: nat, lines: nat, n: nat)
    ensures |TargetProbes(iteration, sets, lines, n)| == n * (sets * lines)
  {
    if n > 0 {
      var i := n - 1;
      TargetProbesLength(iteration, sets, lines, i);
      CandidateProbesLength(iteration, i, lines, sets);
      assert TargetProbes(iteration, sets, lines, i + 1)
          == TargetProbes(iteration, sets, lines, i) + CandidateProbes(iteration, i, lines, sets);
      MulSucc(i, sets * lines);
    }
  }

  lemma {:induction false} ProbesLength(sets: nat, lines: nat, n: nat)
    ensures |Probes(sets, lines, n)| == n * (sets * (sets * lines))
  {
    if n > 0 {
      var i := n - 1;
      ProbesLength(sets, lines, i);
      TargetProbesLength(i, sets, lines, sets);
      assert Probes(sets, lines, i + 1) == Probes(sets, lines, i) + TargetProbes(i, sets, lines, sets);
      MulSucc(i, sets * (sets * lines));
    }
  }

  lemma {:induction false} LineProbesMembers(iteration: nat, targetSet: nat, sPrime: nat, n: nat)
    ensures forall p :: p in LineProbes(iteration, targetSet, sPrime, n) <==>
      p.iteration == iteration && p.targetSet == targetSet && p.sPrime == sPrime && p.lPrime < n
  {
    if n > 0 {
      LineProbesMembers(iteration, targetSet, sPrime, n - 1);
    }
  }

  lemma {:induction false} CandidateProbesMembers(iteration: nat, targetSet: nat, lines: nat, n: nat)
    ensures forall p :: p in CandidateProbes(iteration, targetSet, lines, n) <==>
      p.iteration == iteration && p.targetSet == targetSet && p.sPrime < n && p.lPrime < lines
  {
    if n > 0 {
      var i := n - 1;
      CandidateProbesMembers(iteration, targetSet, lines, i);
      LineProbesMembers(iteration, targetSet, i, lines);
      assert CandidateProbes(iteration, targetSet, lines, i + 1)
          == CandidateProbes(iteration, targetSet, lines, i) + LineProbes(iteration, targetSet, i, lines);
    }
  }

  lemma {:induction false} TargetProbesMembers(iteration: nat, sets: nat, lines: nat, n: nat)
    ensures forall p :: p in TargetProbes(iteration, sets, lines, n) <==>
      p.iteration == iteration && p.targetSet < n && p.sPrime < sets && p.lPrime < lines
  {
    if n > 0 {
      var i := n - 1;
      TargetProbesMembers(iteration, sets, lines, i);
      CandidateProbesMembers(iteration, i, lines, sets);
      assert TargetProbes(iteration, sets, lines, i + 1)
          == TargetProbes(iteration, sets, lines, i) + CandidateProbes(iteration, i, lines, sets);
    }
  }

  /** The probes of a run are exactly the tuples of `[0, n) x [0, sets) x
      [0, sets) x [0, lines)`. */
  lemma {:induction false} ProbesMembers(sets: nat, lines: nat, n: nat)
    ensures forall p :: p in Probes(sets, lines, n) <==>
      p.iteration < n && p.targetSet < sets && p.sPrime < sets && p.lPrime < lines
  {
    forall p: Probe
      ensures p in Probes(sets, lines, n) <==>
        p.iteration < n && p.targetSet < sets && p.sPrime < sets && p.lPrime < lines
    {
      ProbeMember(sets, lines, n, p);
    }
  }

  /** ProbesMembers for one probe, by induction on the iterations. */
  lemma {:induction false} ProbeMember(sets: nat, lines: nat, n: nat, p: Probe)
    ensures p in Probes(sets, lines, n) <==>
      p.iteration < n && p.targetSet < sets && p.sPrime < sets && p.lPrime < lines
  {
    if n > 0 {
      var i := n - 1;
      ProbesLastIteration(sets, lines, i, p);
      ProbeMember(sets, lines, i, p);
      assert i + 1 == n;
    }
  }

  /** A probe of the first `i + 1` iterations is one of the first `i` or
      one of iteration `i`. */
  lemma {:induction false} ProbesLastIteration(sets: nat, lines: nat, i: nat, p: Probe)
    ensures p in Probes(sets, lines, i + 1) <==>
      p in Probes(sets, lines, i)
      || (p.iteration == i && p.targetSet < sets && p.sPrime < sets && p.lPrime < lines)
  {
    assert Probes(sets, lines, i + 1) == Probes(sets, lines, i) + TargetProbes(i, sets, lines, sets);
    TargetProbesMembers(i, sets, lines, sets);
  }

  lemma {:induction false} LineProbesIncreasing(iteration: nat, targetSet: nat, sPrime: nat, n: nat)
    ensures Increasing(LineProbes(iteration, targetSet, sPrime, n))
  {
    if n > 0 {
      LineProbesIncreasing(iteration, targetSet, sPrime, n - 1);
      LineProbesMembers(iteration, targetSet, sPrime, n - 1);
      IncreasingAppend(LineProbes(iteration, targetSet, sPrime, n - 1), [Probe(iteration, targetSet, sPrime, n - 1)]);
    }
  }

  lemma {:induction false} CandidateProbesIncreasing(iteration: nat, targetSet: nat, lines: nat, n: nat)
    ensures Increasing(CandidateProbes(iteration, targetSet, lines, n))
  {
    if n > 0 {
      var i := n - 1;
      var a, b := CandidateProbes(iteration, targetSet, lines, i), LineProbes(iteration, targetSet, i, lines);
      CandidateProbesIncreasing(iteration, targetSet, lines, i);
      LineProbesIncreasing(iteration, targetSet, i, lines);
      forall p, q | p in a && q in b
        ensures Before(p, q)
      {
        CandidateProbesMembers(iteration, targetSet, lines, i);
        LineProbesMembers(iteration, targetSet, i, lines);
      }
      IncreasingAppend(a, b);
      assert CandidateProbes(iteration, targetSet, lines, i + 1) == a + b;
    }
  }

  lemma {:induction false} TargetProbesIncreasing(iteration: nat, sets: nat, lines: nat, n: nat)
    ensures Increasing(TargetProbes(iteration, sets, lines, n))
  {
    if n > 0 {
      var i := n - 1;
      var a, b := TargetProbes(iteration, sets, lines, i), CandidateProbes(iteration, i, lines, sets);
      TargetProbesIncreasing(iteration, sets, lines, i);
      CandidateProbesIncreasing(iteration, i, lines, sets);
      forall p, q | p in a && q in b
        ensures Before(p, q)
      {
        TargetProbesMembers(iteration, sets, lines, i);
        CandidateProbesMembers(iteration, i, lines, sets);
      }
      IncreasingAppend(a, b);
      assert TargetProbes(iteration, sets, lines, i + 1) == a + b;
    }
  }

  /** The probes of a run come in strictly increasing lexicographic order
      of `(iteration, targetSet, sPrime, lPrime)`, `lPrime` fastest; so
      none is made twice. */
  lemma {:induction false} ProbesIncreasing(sets: nat, lines: nat, n: nat)
    ensures Increasing(Probes(sets, lines, n))
  {
    if n > 0 {
      var i := n - 1;
      var a, b := Probes(sets, lines, i), TargetProbes(i, sets, lines, sets);
      ProbesIncreasing(sets, lines, i);
      TargetProbesIncreasing(i, sets, lines, sets);
      forall p, q | p in a && q in b
        ensures Before(p, q)
      {
        ProbeMember(sets, lines, i, p);
        TargetProbesMembers(i, sets, lines, sets);
      }
      IncreasingAppend(a, b);
      assert Probes(sets, lines, i + 1) == a + b;
    }
  }

  /** A run of `n` iterations makes `n * sets * sets * lines` probes. */
  lemma ProbeCount(sets: nat, lines: nat, n: nat)
    ensures |Probes(sets, lines, n)| == n * sets * sets * lines
  {
    ProbesLength(sets, lines, n);
    ProductReassoc(n, sets, sets, lines);
  }

  lemma ProductReassoc(a: nat, b: nat, c: nat, d: nat)
    ensures a * (b * (c * d)) == a * b * c * d
  {
    assert b * (c * d) == (b * c) * d;
    assert a * ((b * c) * d) == (a * (b * c)) * d;
  }

  /** With no iterations or no sets there is nothing to probe. */
  lemma {:induction false} NoProbes(sets: nat, lines: nat, n: nat)
    requires n == 0 || sets == 0
    ensures Probes(sets, lines, n) == []
  {
    if n > 0 {
      NoProbes(sets, lines, n - 1);
    }
  }

  // ----- the events of a run -----

  /** The CSV row written for a probe: the columns are `Set, Iteration,
      SPrime, LPrime, Cycles`, so the target set comes first. */
  function RecordOf(p: Probe, cycles: nat): Row
  {
    Record(p.targetSet, p.iteration, p.sPrime, p.lPrime, cycles)
  }

  /** The events of one probe, in program order. */
  function ProbeEvents(es: EvictionSet, p: Probe, cycles: nat): seq<Event>
  {
    FlushSetEvents(es) + PrimeEvents(es)
    + [TimedRead(ProbeAddress(es, p.sPrime, p.lPrime), cycles), Emit(RecordOf(p, cycles)), Fence]
  }

  /** The cycle count the hardware reports for the timed read of probe `p`:
      just `cycles(p)`. Every probe of a run is made once (ProbesIncreasing), so a
      function of the probe is as general as the sequence of readings of a
      run. The wrapper has no `reads` clause, which keeps the methods' proofs
      from reasoning about the heap each time a reading is used. */
  function Measured(cycles: Probe -> nat, p: Probe): nat
  {
    cycles(p)
  }

  /** The events of the probes `ps`, in order. */
  function ProfileEvents(es: EvictionSet, ps: seq<Probe>, cycles: Probe -> nat): seq<Event>
    decreases |ps|
  {
    if ps == [] then []
    else ProfileEvents(es, ps[..|ps| - 1], cycles) + ProbeEvents(es, ps[|ps| - 1], Measured(cycles, ps[|ps| - 1]))
  }

  lemma ProfileEventsSnoc(es: EvictionSet, ps: seq<Probe>, p: Probe, cycles: Probe -> nat)
    ensures ProfileEvents(es, ps + [p], cycles)
         == ProfileEvents(es, ps, cycles) + ProbeEvents(es, p, Measured(cycles, p))
  {
    assert (ps + [p])[..|ps|] == ps;
  }

  /** Memory after `n` primes. */
  function PrimeRepeat(es: EvictionSet, m: seq<bv8>, n: nat): (r: seq<bv8>)
    ensures |r| == |m|
    decreases n
  {
    if n == 0 then m else PrimeEffect(es, PrimeRepeat(es, m, n - 1))
  }

  /** A byte doubled `n` times, modulo 256 each time. */
  function DoubleTimes(b: bv8, n: nat): bv8
    decreases n
  {
    if n == 0 then b else Apply(Double, DoubleTimes(b, n - 1))
  }

  /** Doubling a byte eight times or more leaves 0: every bit has been
      shifted out. */
  lemma {:induction false} DoubleTimesVanishes(b: bv8, n: nat)
    requires n >= 8
    ensures DoubleTimes(b, n) == 0
  {
    if n > 8 {
      DoubleTimesVanishes(b, n - 1);
    } else {
      var b1 := DoubleTimes(b, 1);
      var b2 := DoubleTimes(b, 2);
      var b4 := DoubleTimes(b, 4);
      assert b1 == b * 2 && b2 == b1 * 2;
      assert DoubleTimes(b, 3) == b2 * 2 && b4 == DoubleTimes(b, 3) * 2;
      assert b4 == b * 16;
      assert DoubleTimes(b, 8) == b4 * 16;
    }
  }

  /** After `n` primes each primed byte has been doubled `n` times and
      every other byte is as it was. */
  lemma {:induction false} PrimeRepeatAt(es: EvictionSet, m: seq<bv8>, n: nat, j: nat)
    requires WellFormed(es) && es.cacheSets > 0 && j < |m|
    ensures PrimeRepeat(es, m, n)[j]
         == if OnStride(es.warmupSection.startAddr, SetStride(es), es.warmupLines + es.cacheLines, j)
            then DoubleTimes(m[j], n) else m[j]
  {
    if n > 0 {
      var i := n - 1;
      PrimeRepeatAt(es, m, i, j);
      PrimeEffectAt(es, PrimeRepeat(es, m, i), j);
      assert PrimeRepeat(es, m, i + 1) == PrimeEffect(es, PrimeRepeat(es, m, i));
      assert DoubleTimes(m[j], i + 1) == Apply(Double, DoubleTimes(m[j], i));
    }
  }

  /** Once a run has made eight probes, every byte the prime writes is 0
      and no other byte has changed. */
  lemma PrimedBytesVanish(es: EvictionSet, m: seq<bv8>, ps: seq<Probe>, j: nat)
    requires WellFormed(es) && es.cacheSets > 0 && j < |m| && |ps| >= 8
    ensures ProfileMemory(es, m, ps)[j]
         == if OnStride(es.warmupSection.startAddr, SetStride(es), es.warmupLines + es.cacheLines, j)
            then 0 else m[j]
  {
    PrimeRepeatAt(es, m, |ps|, j);
    DoubleTimesVanishes(m[j], |ps|);
  }

  /** Memory after the probes `ps`: each primes once. */
  function ProfileMemory(es: EvictionSet, m: seq<bv8>, ps: seq<Probe>): seq<bv8>
  {
    PrimeRepeat(es, m, |ps|)
  }

  lemma {:induction false} ProfileMemoryStep(es: EvictionSet, m: seq<bv8>, done: seq<Probe>,
                                             iter: nat, setIndex: nat, sPrime: nat, n: nat)
    ensures ProfileMemory(es, m, done + LineProbes(iter, setIndex, sPrime, n + 1))
         == PrimeEffect(es, ProfileMemory(es, m, done + LineProbes(iter, setIndex, sPrime, n)))
  {
    assert |done + LineProbes(iter, setIndex, sPrime, n + 1)| == |done + LineProbes(iter, setIndex, sPrime, n)| + 1;
  }

  /** One turn of the innermost loop of `occupancy_profile`: flush the
      eviction set, prime target set `p.targetSet`, time a read of line
      `(p.sPrime, p.lPrime)`, write its row, fence. */
  method ProbeOnce(m: Machine, es: EvictionSet, p: Probe, cycles: nat)
    requires WellFormed(es) && InMemory(es, m.mem.Length)
    requires p.targetSet < es.cacheSets && p.sPrime < es.cacheSets && p.lPrime < ProbeLines(es)
    modifies m, m.mem
    ensures m.trace == old(m.trace) + ProbeEvents(es, p, cycles)
    ensures m.mem[..] == PrimeEffect(es, old(m.mem[..]))
  {
    var line := es.warmupSection.startAddr + (p.sPrime * CACHE_LINE_SIZE)
                + (p.lPrime * CACHE_LINE_SIZE * es.cacheSets);
    ProbeAddressInAllocation(es, p.sPrime, p.lPrime);
    FlushEvictionSet(m, es);
    PrimeSetWriteWithWarmup(m, es, p.targetSet);
    var time := m.TimedReadAccess(line, cycles);
    m.WriteRow(Record(p.targetSet, p.iteration, p.sPrime, p.lPrime, time));
    m.MemoryFence();
  }

  /** One more turn of the innermost loop extends the log by the events
      of one more probe. */
  lemma {:induction false} ProfileLineStep(es: EvictionSet, done: seq<Probe>, iter: nat, setIndex: nat, sPrime: nat,
                                           n: nat, cycles: Probe -> nat)
    ensures ProfileEvents(es, done + LineProbes(iter, setIndex, sPrime, n + 1), cycles)
         == ProfileEvents(es, done + LineProbes(iter, setIndex, sPrime, n), cycles)
            + ProbeEvents(es, Probe(iter, setIndex, sPrime, n), Measured(cycles, Probe(iter, setIndex, sPrime, n)))
  {
    var p := Probe(iter, setIndex, sPrime, n);
    LineProbesStep(iter, setIndex, sPrime, n);
    assert done + LineProbes(iter, setIndex, sPrime, n + 1) == (done + LineProbes(iter, setIndex, sPrime, n)) + [p];
    ProfileEventsSnoc(es, done + LineProbes(iter, setIndex, sPrime, n), p, cycles);
  }

  lemma EventsAssoc(a: seq<Event>, b: seq<Event>, c: seq<Event>)
    ensures (a + b) + c == a + (b + c)
  {
  }

  lemma {:induction false} LineProbesStep(iter: nat, setIndex: nat, sPrime: nat, n: nat)
    ensures LineProbes(iter, setIndex, sPrime, n + 1)
         == LineProbes(iter, setIndex, sPrime, n) + [Probe(iter, setIndex, sPrime, n)]
  {
  }

  lemma {:induction false} CandidateProbesStep(done: seq<Probe>, iter: nat, setIndex: nat, lines: nat, n: nat)
    ensures (done + CandidateProbes(iter, setIndex, lines, n)) + LineProbes(iter, setIndex, n, lines)
         == done + CandidateProbes(iter, setIndex, lines, n + 1)
  {
    assert CandidateProbes(iter, setIndex, lines, n + 1)
        == CandidateProbes(iter, setIndex, lines, n) + LineProbes(iter, setIndex, n, lines);
  }

  lemma {:induction false} TargetProbesStep(done: seq<Probe>, iter: nat, sets: nat, lines: nat, n: nat)
    ensures (done + TargetProbes(iter, sets, lines, n)) + CandidateProbes(iter, n, lines, sets)
         == done + TargetProbes(iter, sets, lines, n + 1)
  {
    assert TargetProbes(iter, sets, lines, n + 1)
        == TargetProbes(iter, sets, lines, n) + CandidateProbes(iter, n, lines, sets);
  }

  lemma {:induction false} ProbesStep(sets: nat, lines: nat, n: nat)
    ensures Probes(sets, lines, n) + TargetProbes(n, sets, lines, sets) == Probes(sets, lines, n + 1)
  {
  }

  /** The innermost loop of `occupancy_profile`: line `(sPrime, lPrime)`
      for every row `lPrime` in increasing order. `done` are the probes
      made before; the run's log and memory go on from there. */
  method ProbeCandidate(m: Machine, es: EvictionSet, iter: nat, setIndex: nat, sPrime: nat, cycles: Probe -> nat,
                        ghost done: seq<Probe>, ghost t0: seq<Event>, ghost m0: seq<bv8>)
    requires WellFormed(es) && InMemory(es, m.mem.Length)
    requires setIndex < es.cacheSets && sPrime < es.cacheSets
    requires m.trace == t0 + ProfileEvents(es, done, cycles)
    requires m.mem[..] == ProfileMemory(es, m0, done)
    modifies m, m.mem
    ensures m.trace == t0 + ProfileEvents(es, done + LineProbes(iter, setIndex, sPrime, ProbeLines(es)), cycles)
    ensures m.mem[..] == ProfileMemory(es, m0, done + LineProbes(iter, setIndex, sPrime, ProbeLines(es)))
  {
    assert done + LineProbes(iter, setIndex, sPrime, 0) == done;
    assert ProbeLines(es) == es.cacheLines + es.warmupLines;
    for lPrime := 0 to es.cacheLines + es.warmupLines
      invariant m.trace == t0 + ProfileEvents(es, done + LineProbes(iter, setIndex, sPrime, lPrime), cycles)
      invariant m.mem[..] == ProfileMemory(es, m0, done + LineProbes(iter, setIndex, sPrime, lPrime))
    {
      var p := Probe(iter, setIndex, sPrime, lPrime);
      ProfileLineStep(es, done, iter, setIndex, sPrime, lPrime, cycles);
      EventsAssoc(t0, ProfileEvents(es, done + LineProbes(iter, setIndex, sPrime, lPrime), cycles),
                  ProbeEvents(es, p, Measured(cycles, p)));
      ProfileMemoryStep(es, m0, done, iter, setIndex, sPrime, lPrime);
      ProbeOnce(m, es, p, Measured(cycles, p));
    }
  }

  /** The `sPrime` loop of `occupancy_profile` for one iteration and one
      target set: every line `(sPrime, lPrime)` of the eviction set,
      `lPrime` fastest. */
  method ProbeTargetSet(m: Machine, es: EvictionSet, iter: nat, setIndex: nat, cycles: Probe -> nat,
                        ghost done: seq<Probe>, ghost t0: seq<Event>, ghost m0: seq<bv8>)
    requires WellFormed(es) && InMemory(es, m.mem.Length) && setIndex < es.cacheSets
    requires m.trace == t0 + ProfileEvents(es, done, cycles)
    requires m.mem[..] == ProfileMemory(es, m0, done)
    modifies m, m.mem
    ensures m.trace
         == t0 + ProfileEvents(es, done + CandidateProbes(iter, setIndex, ProbeLines(es), es.cacheSets), cycles)
    ensures m.mem[..]
         == ProfileMemory(es, m0, done + CandidateProbes(iter, setIndex, ProbeLines(es), es.cacheSets))
  {
    assert done + CandidateProbes(iter, setIndex, ProbeLines(es), 0) == done;
    for sPrime := 0 to es.cacheSets
      invariant m.trace
             == t0 + ProfileEvents(es, done + CandidateProbes(iter, setIndex, ProbeLines(es), sPrime), cycles)
      invariant m.mem[..]
             == ProfileMemory(es, m0, done + CandidateProbes(iter, setIndex, ProbeLines(es), sPrime))
    {
      CandidateProbesStep(done, iter, setIndex, ProbeLines(es), sPrime);
      ProbeCandidate(m, es, iter, setIndex, sPrime, cycles,
                     done + CandidateProbes(iter, setIndex, ProbeLines(es), sPrime), t0, m0);
    }
  }

  /** The target-set loop of `occupancy_profile` for one iteration: every
      target set in increasing order, each with the two inner loops. */
  method ProfileIteration(m: Machine, es: EvictionSet, iter: nat, cycles: Probe -> nat,
                          ghost done: seq<Probe>, ghost t0: seq<Event>, ghost m0: seq<bv8>)
    requires WellFormed(es) && InMemory(es, m.mem.Length)
    requires m.trace == t0 + ProfileEvents(es, done, cycles)
    requires m.mem[..] == ProfileMemory(es, m0, done)
    modifies m, m.mem
    ensures m.trace == t0 + ProfileEvents(es, done + TargetProbes(iter, es.cacheSets, ProbeLines(es), es.cacheSets), cycles)
    ensures m.mem[..] == ProfileMemory(es, m0, done + TargetProbes(iter, es.cacheSets, ProbeLines(es), es.cacheSets))
  {
    assert done + TargetProbes(iter, es.cacheSets, ProbeLines(es), 0) == done;
    for setIndex := 0 to es.cacheSets
      invariant m.trace == t0 + ProfileEvents(es, done + TargetProbes(iter, es.cacheSets, ProbeLines(es), setIndex), cycles)
      invariant m.mem[..] == ProfileMemory(es, m0, done + TargetProbes(iter, es.cacheSets, ProbeLines(es), setIndex))
    {
      TargetProbesStep(done, iter, es.cacheSets, ProbeLines(es), setIndex);
      ProbeTargetSet(m, es, iter, setIndex, cycles, done + TargetProbes(iter, es.cacheSets, ProbeLines(es), setIndex), t0, m0);
    }
  }

  /** `occupancy_profile`: writes the header, then makes every probe of
      `Probes(cacheSets, cacheLines + warmupLines, numIterations)` in
      order. `cycles(p)` is what the cycle counter reports for the timed
      read of probe `p`. */
  method OccupancyProfile(m: Machine, es: EvictionSet, numIterations: nat, cycles: Probe -> nat)
    requires WellFormed(es) && InMemory(es, m.mem.Length)
    modifies m, m.mem
    ensures m.trace == old(m.trace) + [Emit(Header)]
                       + ProfileEvents(es, Probes(es.cacheSets, ProbeLines(es), numIterations), cycles)
    ensures m.mem[..] == ProfileMemory(es, old(m.mem[..]), Probes(es.cacheSets, ProbeLines(es), numIterations))
  {
    m.WriteRow(Header);
    ghost var m0 := m.mem[..];
    ghost var t0 := m.trace;
    for iter := 0 to numIterations
      invariant m.trace == t0 + ProfileEvents(es, Probes(es.cacheSets, ProbeLines(es), iter), cycles)
      invariant m.mem[..] == ProfileMemory(es, m0, Probes(es.cacheSets, ProbeLines(es), iter))
    {
      ProbesStep(es.cacheSets, ProbeLines(es), iter);
      ProfileIteration(m, es, iter, cycles, Probes(es.cacheSets, ProbeLines(es), iter), t0, m0);
    }
  }

  // ----- the rows a run writes -----

  /** The CSV rows among a run's events, in order. */
  function Rows(t: seq<Event>): seq<Row>
    decreases |t|
  {
    if t == [] then []
    else Rows(t[..|t| - 1]) + (if t[|t| - 1].Emit? then [t[|t| - 1].row] else [])
  }

  lemma {:induction false} RowsAppend(a: seq<Event>, b: seq<Event>)
    ensures Rows(a + b) == Rows(a) + Rows(b)
    decreases |b|
  {
    if b == [] {
      assert a + b == a;
    } else {
      var b' := b[..|b| - 1];
      RowsAppend(a, b');
      assert (a + b)[..|a + b| - 1] == a + b';
      assert (a + b)[|a + b| - 1] == b[|b| - 1];
    }
  }

  /** A stretch of events with no row in it writes no row. */
  lemma {:induction false} RowsOfNoEmit(t: seq<Event>)
    requires forall e | e in t :: !e.Emit?
    ensures Rows(t) == []
    decreases |t|
  {
    if t != [] {
      assert forall e | e in t[..|t| - 1] :: e in t;
      RowsOfNoEmit(t[..|t| - 1]);
    }
  }

  lemma RowsOne(e: Event)
    ensures Rows([e]) == if e.Emit? then [e.row] else []
  {
    assert [e][..0] == [];
  }

  /** One probe writes exactly one row: its record. */
  lemma RowsOfProbe(es: EvictionSet, p: Probe, cycles: nat)
    ensures Rows(ProbeEvents(es, p, cycles)) == [RecordOf(p, cycles)]
  {
    var ws, os := es.warmupSection.startAddr, es.occupationSection.startAddr;
    SweepOnlyLines(Flush, ws, CACHE_LINE_SIZE, LineCount(es.warmupSection.size));
    SweepOnlyLines(Flush, os, CACHE_LINE_SIZE, LineCount(es.occupationSection.size));
    SweepOnlyLines(Modify, ws, SetStride(es), es.warmupLines);
    SweepOnlyLines(Modify, os, SetStride(es), es.cacheLines);
    var head := FlushSetEvents(es) + PrimeEvents(es);
    RowsOfNoEmit(head);
    var x, y, z := TimedRead(ProbeAddress(es, p.sPrime, p.lPrime), cycles), Emit(RecordOf(p, cycles)), Fence;
    assert ProbeEvents(es, p, cycles) == head + [x] + [y] + [z];
    RowsAppend(head, [x]);
    RowsAppend(head + [x], [y]);
    RowsAppend(head + [x] + [y], [z]);
    RowsOne(x);
    RowsOne(y);
    RowsOne(z);
  }

  /** The rows of the probes `ps`: one per probe, in probe order, each
      carrying its probe's cycle count. */
  lemma {:induction false} RowsOfProfile(es: EvictionSet, ps: seq<Probe>, cycles: Probe -> nat)
    ensures |Rows(ProfileEvents(es, ps, cycles))| == |ps|
    ensures forall k | 0 <= k < |ps| :: Rows(ProfileEvents(es, ps, cycles))[k] == RecordOf(ps[k], cycles(ps[k]))
    decreases |ps|
  {
    if ps != [] {
      var init, last := ps[..|ps| - 1], ps[|ps| - 1];
      RowsOfProfile(es, init, cycles);
      RowsAppend(ProfileEvents(es, init, cycles), ProbeEvents(es, last, Measured(cycles, last)));
      RowsOfProbe(es, last, Measured(cycles, last));
    }
  }

  /** The rows of a log that starts with the header and goes on with the
      events of the probes `ps`: the header, then one record per probe, in
      order. */
  lemma HeaderThenRecords(es: EvictionSet, ps: seq<Probe>, cycles: Probe -> nat)
    ensures var rows := Rows([Emit(Header)] + ProfileEvents(es, ps, cycles));
      && |rows| == 1 + |ps|
      && rows[0] == Header
      && forall k | 0 <= k < |ps| :: rows[k + 1] == RecordOf(ps[k], cycles(ps[k]))
  {
    var t := ProfileEvents(es, ps, cycles);
    RowsOfProfile(es, ps, cycles);
    RowsAppend([Emit(Header)], t);
    RowsOne(Emit(Header));
    var rows := Rows([Emit(Header)] + t);
    assert rows == [Header] + Rows(t);
    forall k | 0 <= k < |ps|
      ensures rows[k + 1] == RecordOf(ps[k], cycles(ps[k]))
    {
      assert rows[k + 1] == Rows(t)[k];
    }
  }

  /** What a run writes to its CSV file: the header, then one record per
      probe, `numIterations * cacheSets * cacheSets * (cacheLines +
      warmupLines)` of them, the `k`-th being the `k`-th probe of the sweep
      order with its cycle count. */
  lemma ProfileOutput(es: EvictionSet, numIterations: nat, cycles: Probe -> nat)
    ensures var ps := Probes(es.cacheSets, ProbeLines(es), numIterations);
      var rows := Rows([Emit(Header)] + ProfileEvents(es, ps, cycles));
      && |ps| == numIterations * es.cacheSets * es.cacheSets * ProbeLines(es)
      && |rows| == 1 + |ps|
      && rows[0] == Header
      && forall k | 0 <= k < |ps| :: rows[k + 1] == RecordOf(ps[k], cycles(ps[k]))
  {
    ProbeCount(es.cacheSets, ProbeLines(es), numIterations);
    HeaderThenRecords(es, Probes(es.cacheSets, ProbeLines(es), numIterations), cycles);
  }

  /** With no iterations or no sets a run writes the header and nothing
      else, and issues no other event. */
  lemma ProfileOnlyHeader(es: EvictionSet, numIterations: nat, cycles: Probe -> nat)
    requires numIterations == 0 || es.cacheSets == 0
    ensures [Emit(Header)] + ProfileEvents(es, Probes(es.cacheSets, ProbeLines(es), numIterations), cycles)
         == [Emit(Header)]
  {
    NoProbes(es.cacheSets, ProbeLines(es), numIterations);
  }
}
