/** The DRAP statistics reader: each line `utime : min max mean` of the
    statistics file is placed, by its age, into one of 440 bins spanning the
    last 24 hours; each bin keeps the hours-ago of its latest record and the
    largest `max` seen. The reader then reports how many lines it read and
    accepted and how many bins hold a positive value. */
module Drap {

  const NPTS: nat := 440
  const PERIOD: int := 24 * 3600

  /** A line of the statistics file, after `sscanf`: fewer than four fields is `Garbled`. */
  datatype Line = Garbled | Record(utime: int, min: real, max: real, mean: real)

  // ---------------------------------------------------------------------------
  // Bin index with C integer division
  // ---------------------------------------------------------------------------

  /** C's `/` on `int`: the quotient truncated toward zero. */
  function TruncDiv(a: int, b: int): (q: int)
    requires b > 0
    ensures a >= 0 ==> q * b <= a < q * b + b
    ensures a < 0 ==> q * b - b < a <= q * b
  {
    if a >= 0 then a / b else -((-a) / b)
  }

  /** `xi = NPTS * (PERIOD - age) / PERIOD`. */
  function BinIndex(age: int): int
  {
    TruncDiv(NPTS * (PERIOD - age), PERIOD)
  }

  predicate InBins(xi: int)
  {
    0 <= xi < NPTS
  }

  /** A record is binned iff its age is between 1 second and 24 h 196 s: a
      record stamped now or in the future lands past the last bin, and
      truncation toward zero sends ages a little over 24 h to bin 0. */
  lemma BinIndexAccepts(age: int)
    ensures InBins(BinIndex(age)) <==> 1 <= age <= PERIOD + 196
    ensures PERIOD <= age <= PERIOD + 196 ==> BinIndex(age) == 0
  {
    var n := NPTS * (PERIOD - age);
    if age <= 0 {
      assert n >= NPTS * PERIOD;
    } else if age <= PERIOD {
      assert 0 <= n < NPTS * PERIOD;
    } else if age <= PERIOD + 196 {
      assert -PERIOD < n < 0;
    } else {
      assert n <= -PERIOD;
    }
  }

  /** The value a 32-bit two's-complement `int` holds after storing `v`. */
  function Wrap32(v: int): (r: int)
    ensures -0x8000_0000 <= r < 0x8000_0000
    ensures -0x8000_0000 <= v < 0x8000_0000 ==> r == v
  {
    (v + 0x8000_0000) % 0x1_0000_0000 - 0x8000_0000
  }

  /** The bin index as the C code computes it on 32-bit `int`: the 64-bit
      difference `t_now - utime` is narrowed to `int`, and the subtraction
      and product wrap around. */
  function BinIndexWrapped(diff: int): int
  {
    var age := Wrap32(diff);
    TruncDiv(Wrap32(NPTS * Wrap32(PERIOD - age)), PERIOD)
  }

  /** For records within about 46 days of now the 32-bit computation is exact. */
  lemma BinIndexWrappedAgrees(diff: int)
    requires -4_000_000 <= diff <= 4_000_000
    ensures BinIndexWrapped(diff) == BinIndex(diff)
  {
    assert Wrap32(diff) == diff;
    assert Wrap32(PERIOD - diff) == PERIOD - diff;
    assert -0x8000_0000 <= NPTS * (PERIOD - diff) < 0x8000_0000;
  }

  /** A record about 114 days old: the product overflows to 136 and the
      record is accepted into bin 0, while the exact index is far below 0. */
  lemma BinIndexWrappedAcceptsStale()
    ensures InBins(BinIndexWrapped(9_847_689)) && BinIndexWrapped(9_847_689) == 0
    ensures !InBins(BinIndex(9_847_689))
  {
    assert Wrap32(9_847_689) == 9_847_689;
    assert Wrap32(PERIOD - 9_847_689) == -9_761_289;
    assert NPTS * -9_761_289 == -4_294_967_160;
    assert Wrap32(-4_294_967_160) == 136;
    assert TruncDiv(136, PERIOD) == 0;
    BinIndexAccepts(9_847_689);
  }

  // ---------------------------------------------------------------------------
  // The bins after a sequence of lines, as values
  // ---------------------------------------------------------------------------

  predicate Accepts(line: Line, now: int)
  {
    line.Record? && InBins(BinIndex(now - line.utime))
  }

  function Zeros(): seq<real>
  {
    seq(NPTS, _ => 0.0)
  }

  /** `x[xi] = age / -3600`: the record's hours ago, negated. */
  function HoursAgo(age: int): real
  {
    (age as real) / -3600.0
  }

  /** The `y` array after one line: the running max of the record's bin. */
  function StepY(ys: seq<real>, line: Line, now: int): (r: seq<real>)
    requires |ys| == NPTS
    ensures |r| == NPTS
  {
    if Accepts(line, now) then
      var xi := BinIndex(now - line.utime);
      ys[xi := if line.max > ys[xi] then line.max else ys[xi]]
    else ys
  }

  /** The `x` array after one line. */
  function StepX(xs: seq<real>, line: Line, now: int): (r: seq<real>)
    requires |xs| == NPTS
    ensures |r| == NPTS
  {
    if Accepts(line, now) then xs[BinIndex(now - line.utime) := HoursAgo(now - line.utime)]
    else xs
  }

  function YAfter(lines: seq<Line>, now: int): (ys: seq<real>)
    ensures |ys| == NPTS
  {
    if lines == [] then Zeros()
    else StepY(YAfter(lines[..|lines| - 1], now), lines[|lines| - 1], now)
  }

  function XAfter(lines: seq<Line>, now: int): (xs: seq<real>)
    ensures |xs| == NPTS
  {
    if lines == [] then Zeros()
    else StepX(XAfter(lines[..|lines| - 1], now), lines[|lines| - 1], now)
  }

  /** The `accepted` counter after `lines`. */
  function AcceptedCount(lines: seq<Line>, now: int): (n: nat)
    ensures n <= |lines|
  {
    if lines == [] then 0
    else AcceptedCount(lines[..|lines| - 1], now) + (if Accepts(lines[|lines| - 1], now) then 1 else 0)
  }

  /** The number of entries greater than zero. */
  function CountPositive(ys: seq<real>): (n: nat)
    ensures n <= |ys|
  {
    if ys == [] then 0
    else CountPositive(ys[..|ys| - 1]) + (if ys[|ys| - 1] > 0.0 then 1 else 0)
  }

  /** No bin's max ever decreases, so every bin stays at or above zero. */
  lemma {:induction false} YAfterGrows(lines: seq<Line>, now: int, n: nat, b: int)
    requires n <= |lines| && 0 <= b < NPTS
    ensures 0.0 <= YAfter(lines[..n], now)[b] <= YAfter(lines, now)[b]
    decreases |lines|
  {
    if n == |lines| {
      assert lines[..n] == lines;
      YAfterNonNegative(lines, now, b);
    } else {
      var m := |lines| - 1;
      assert lines[..m][..n] == lines[..n];
      YAfterGrows(lines[..m], now, n, b);
    }
  }

  lemma {:induction false} YAfterNonNegative(lines: seq<Line>, now: int, b: int)
    requires 0 <= b < NPTS
    ensures 0.0 <= YAfter(lines, now)[b]
  {
    if lines != [] {
      YAfterNonNegative(lines[..|lines| - 1], now, b);
    }
  }

  /** Each bin's value is at least the `max` of every accepted record in it. */
  lemma YAfterCoversRecords(lines: seq<Line>, now: int, k: int)
    requires 0 <= k < |lines| && Accepts(lines[k], now)
    ensures lines[k].max <= YAfter(lines, now)[BinIndex(now - lines[k].utime)]
  {
    var b := BinIndex(now - lines[k].utime);
    assert lines[..k + 1][..k] == lines[..k];
    YAfterGrows(lines, now, k + 1, b);
  }

  /** A positive bin value is the `max` of some accepted record of that bin. */
  lemma {:induction false} YAfterAttained(lines: seq<Line>, now: int, b: int)
    requires 0 <= b < NPTS && YAfter(lines, now)[b] > 0.0
    ensures exists k :: (0 <= k < |lines| && Accepts(lines[k], now) &&
      BinIndex(now - lines[k].utime) == b && lines[k].max == YAfter(lines, now)[b])
  {
    var m := |lines| - 1;
    var prev := lines[..m];
    var line := lines[m];
    if Accepts(line, now) && BinIndex(now - line.utime) == b && line.max > YAfter(prev, now)[b] {
      assert lines[m] == line;
    } else {
      YAfterAttained(prev, now, b);
      var k :| 0 <= k < |prev| && Accepts(prev[k], now) &&
        BinIndex(now - prev[k].utime) == b && prev[k].max == YAfter(prev, now)[b];
      assert lines[k] == prev[k];
    }
  }

  /** Every `x` entry is zero or minus the hours-ago of a binned record, so it
      lies between -(24 h 196 s) and 0 hours. */
  lemma {:induction false} XAfterRange(lines: seq<Line>, now: int, b: int)
    requires 0 <= b < NPTS
    ensures -((PERIOD + 196) as real) / 3600.0 <= XAfter(lines, now)[b] <= 0.0
  {
    if lines != [] {
      var line := lines[|lines| - 1];
      XAfterRange(lines[..|lines| - 1], now, b);
      if Accepts(line, now) {
        BinIndexAccepts(now - line.utime);
      }
    }
  }

  lemma {:induction false} CountPositiveUpdate(ys: seq<real>, i: int, v: real)
    requires 0 <= i < |ys|
    ensures CountPositive(ys[i := v]) <= CountPositive(ys) + 1
    ensures ys[i] > 0.0 && v > 0.0 ==> CountPositive(ys[i := v]) == CountPositive(ys)
  {
    var n := |ys| - 1;
    if i < n {
      CountPositiveUpdate(ys[..n], i, v);
      assert ys[i := v][..n] == ys[..n][i := v];
    } else {
      assert ys[i := v][..n] == ys[..n];
    }
  }

  /** Populated bins never outnumber accepted records. */
  lemma {:induction false} PopulatedAtMostAccepted(lines: seq<Line>, now: int)
    ensures CountPositive(YAfter(lines, now)) <= AcceptedCount(lines, now)
  {
    if lines == [] {
      ZerosNotPositive(NPTS);
    } else {
      var m := |lines| - 1;
      var prev := YAfter(lines[..m], now);
      PopulatedAtMostAccepted(lines[..m], now);
      if Accepts(lines[m], now) {
        var xi := BinIndex(now - lines[m].utime);
        CountPositiveUpdate(prev, xi, if lines[m].max > prev[xi] then lines[m].max else prev[xi]);
      }
    }
  }

  lemma {:induction false} ZerosNotPositive(n: nat)
    ensures CountPositive(seq(n, _ => 0.0)) == 0
  {
    if n > 0 {
      assert seq(n, _ => 0.0)[..n - 1] == seq(n - 1, _ => 0.0);
      ZerosNotPositive(n - 1);
    }
  }

  // ---------------------------------------------------------------------------
  // The cache arrays, updated in place
  // ---------------------------------------------------------------------------

  /** `struct DrapCache`: hours-ago and max per bin. */
  class DrapCache {
    var x: array<real>
    var y: array<real>

    ghost predicate Valid()
      reads this
    {
      x.Length == NPTS && y.Length == NPTS && x != y
    }

    /** The cache after `memset(..., 0, ...)`. */
    constructor ()
      ensures Valid() && fresh(x) && fresh(y)
      ensures x[..] == Zeros() && y[..] == Zeros()
    {
      x := new real[NPTS](_ => 0.0);
      y := new real[NPTS](_ => 0.0);
    }

    /** The loop body for one line: skip a garbled line or an out-of-range
        bin, else set the bin's hours-ago and raise its max. */
    method Ingest(line: Line, now: int) returns (accepted: bool)
      requires Valid()
      modifies x, y
      ensures accepted == Accepts(line, now)
      ensures y[..] == StepY(old(y[..]), line, now)
      ensures x[..] == StepX(old(x[..]), line, now)
      ensures forall i :: 0 <= i < NPTS && (!accepted || i != BinIndex(now - line.utime)) ==>
        x[i] == old(x[i]) && y[i] == old(y[i])
    {
      if line.Garbled? {
        return false;
      }
      var age := now - line.utime;
      var xi := BinIndex(age);
      if xi < 0 || xi >= NPTS {
        return false;
      }
      x[xi] := HoursAgo(age);
      if line.max > y[xi] {
        y[xi] := line.max;
      }
      return true;
    }

    /** The diagnostics loop counting bins with a positive max. */
    method CountPopulated() returns (populated: nat)
      requires Valid()
      ensures populated == CountPositive(y[..]) && populated <= NPTS
    {
      populated := 0;
      for i := 0 to NPTS
        invariant populated == CountPositive(y[..i])
      {
        assert y[..i + 1][..i] == y[..i];
        if y[i] > 0.0 {
          populated := populated + 1;
        }
      }
      assert y[..NPTS] == y[..];
    }
  }

  /** `main` after the file is opened: read every line into a fresh cache,
      then report lines read, lines accepted, bins populated, and whether
      fewer than half the bins are populated. */
  method ReadStats(lines: seq<Line>, now: int) returns (nLines: nat, accepted: nat, populated: nat, sparse: bool)
    ensures nLines == |lines|
    ensures accepted == AcceptedCount(lines, now) && accepted <= nLines
    ensures populated == CountPositive(YAfter(lines, now)) && populated <= NPTS
    ensures populated <= accepted
    ensures sparse <==> populated < NPTS / 2
  {
    var cache := new DrapCache();
    nLines, accepted := 0, 0;
    var i := 0;
    while i < |lines|
      invariant 0 <= i <= |lines| && nLines == i
      invariant cache.Valid() && fresh(cache.x) && fresh(cache.y)
      invariant accepted == AcceptedCount(lines[..i], now)
      invariant cache.y[..] == YAfter(lines[..i], now)
      invariant cache.x[..] == XAfter(lines[..i], now)
    {
      assert lines[..i + 1][..i] == lines[..i];
      nLines := nLines + 1;
      var ok := cache.Ingest(lines[i], now);
      if ok {
        accepted := accepted + 1;
      }
      i := i + 1;
    }
    assert lines[..i] == lines;
    populated := cache.CountPopulated();
    PopulatedAtMostAccepted(lines, now);
    sparse := populated < NPTS / 2;
  }
}
