/** The Kp stream producer: 72 planetary Kp values, oldest first, made of 56
    historic 3-hour bins expanded from the daily geomagnetic indices and 16
    forecast bins sliced from the 3-day forecast table.

    Instants are integer microseconds since 1970-01-01T00:00:00Z. */
module KpStream {
  import opened Common

  const KP_VPD: nat := 8                             // values per day
  const KP_NHD: nat := 7                             // historic days
  const KP_NPD: nat := 2                             // forecast days
  const KP_NV: nat := (KP_NHD + KP_NPD) * KP_VPD     // 72
  const HIST_NV: nat := KP_NHD * KP_VPD              // 56
  const FCST_NV: nat := KP_NPD * KP_VPD              // 16
  const FCST_OFFSET_BINS: int := 1
  const LAG_BINS: int := 2

  const US_PER_HOUR: int := 3_600_000_000
  const US_PER_BIN: int := 3 * US_PER_HOUR
  const US_PER_DAY: int := 24 * US_PER_HOUR

  datatype KpError =
    | NoDgdRows
    | NoForecastHeader
    | ForecastRowCount(got: nat)
    | BadOffset(offset: int)
    | NoHistory
    | BadLength(got: nat)

  // ---------------------------------------------------------------------------
  // Persistence fill (`sanitize_series`)
  // ---------------------------------------------------------------------------

  /** A value the stream may publish: finite and not negative. */
  predicate IsGood(f: Float)
  {
    f.Finite? && f.x >= 0.0
  }

  /** The most recent good value of `s`, if there is one. */
  function LastGood(s: seq<Float>): (r: Option<Float>)
    ensures r.Some? ==> IsGood(r.value)
  {
    if s == [] then None
    else if IsGood(s[|s| - 1]) then Some(s[|s| - 1])
    else LastGood(s[..|s| - 1])
  }

  /** What the fill emits for `v` when the good values before it end in `last`. */
  function Filled(v: Float, last: Option<Float>, fallback: Float): Float
  {
    if IsGood(v) then v else if last.Some? then last.value else fallback
  }

  /** The output of `sanitize_series(vals, fallback)`, element by element. */
  function Sanitized(vals: seq<Float>, fallback: Float): (r: seq<Float>)
    ensures |r| == |vals|
  {
    if vals == [] then []
    else
      var k := |vals| - 1;
      Sanitized(vals[..k], fallback) + [Filled(vals[k], LastGood(vals[..k]), fallback)]
  }

  /** `sanitize_series`: walk the values once, remembering the last good one. */
  method SanitizeSeries(vals: seq<Float>, fallback: Float) returns (out: seq<Float>)
    ensures |out| == |vals|
    ensures out == Sanitized(vals, fallback)
  {
    out := [];
    var last: Option<Float> := None;
    for i := 0 to |vals|
      invariant out == Sanitized(vals[..i], fallback)
      invariant last == LastGood(vals[..i])
    {
      assert vals[..i + 1][..i] == vals[..i];
      var f := vals[i];
      if !IsGood(f) {
        f := if last.Some? then last.value else fallback;
      } else {
        last := Some(f);
      }
      out := out + [f];
    }
    assert vals[..|vals|] == vals;
  }

  lemma {:induction false} LastGoodIsMostRecent(s: seq<Float>)
    ensures LastGood(s).None? <==> forall k :: 0 <= k < |s| ==> !IsGood(s[k])
    ensures LastGood(s).Some? ==>
      exists j :: 0 <= j < |s| && s[j] == LastGood(s).value &&
        forall k :: j < k < |s| ==> !IsGood(s[k])
  {
    if s != [] {
      var n := |s| - 1;
      if !IsGood(s[n]) {
        LastGoodIsMostRecent(s[..n]);
        assert forall k :: 0 <= k < n ==> s[..n][k] == s[k];
      } else {
        assert s[n] == LastGood(s).value;
      }
    }
  }

  lemma {:induction false} SanitizedAt(vals: seq<Float>, fallback: Float, i: nat)
    requires i < |vals|
    ensures Sanitized(vals, fallback)[i] == Filled(vals[i], LastGood(vals[..i]), fallback)
  {
    var k := |vals| - 1;
    if i < k {
      SanitizedAt(vals[..k], fallback, i);
      assert vals[..k][..i] == vals[..i];
    }
  }

  /** A good value is emitted unchanged; a bad one becomes the most recent
      earlier good value, or the fallback when there is none. */
  lemma SanitizedKeepsGoodFillsBad(vals: seq<Float>, fallback: Float, i: nat)
    requires i < |vals|
    ensures IsGood(vals[i]) ==> Sanitized(vals, fallback)[i] == vals[i]
    ensures !IsGood(vals[i]) && (forall k :: 0 <= k < i ==> !IsGood(vals[k])) ==>
      Sanitized(vals, fallback)[i] == fallback
    ensures !IsGood(vals[i]) ==>
      forall j :: 0 <= j < i && IsGood(vals[j]) && (forall k :: j < k < i ==> !IsGood(vals[k])) ==>
        Sanitized(vals, fallback)[i] == vals[j]
  {
    SanitizedAt(vals, fallback, i);
    LastGoodIsMostRecent(vals[..i]);
    assert forall k :: 0 <= k < i ==> vals[..i][k] == vals[k];
  }

  /** With a good fallback, nothing bad is ever emitted. */
  lemma SanitizedAllGood(vals: seq<Float>, fallback: Float)
    requires IsGood(fallback)
    ensures forall i :: 0 <= i < |vals| ==> IsGood(Sanitized(vals, fallback)[i])
  {
    forall i | 0 <= i < |vals| ensures IsGood(Sanitized(vals, fallback)[i]) {
      SanitizedAt(vals, fallback, i);
    }
  }

  /** Every good input value survives in place. */
  lemma SanitizedKeepsAllGood(vals: seq<Float>, fallback: Float)
    ensures forall i :: 0 <= i < |vals| && IsGood(vals[i]) ==> Sanitized(vals, fallback)[i] == vals[i]
  {
    forall i | 0 <= i < |vals| && IsGood(vals[i]) ensures Sanitized(vals, fallback)[i] == vals[i] {
      SanitizedAt(vals, fallback, i);
    }
  }

  /** The fill only looks back: the output for a prefix is the prefix of the output. */
  lemma SanitizedPrefix(vals: seq<Float>, fallback: Float, n: nat)
    requires n <= |vals|
    ensures Sanitized(vals[..n], fallback) == Sanitized(vals, fallback)[..n]
  {
    forall i | 0 <= i < n ensures Sanitized(vals[..n], fallback)[i] == Sanitized(vals, fallback)[i] {
      SanitizedAt(vals[..n], fallback, i);
      SanitizedAt(vals, fallback, i);
      assert vals[..n][..i] == vals[..i];
    }
  }

  lemma {:induction false} LastGoodOfSanitized(vals: seq<Float>, fallback: Float, i: nat)
    requires i <= |vals|
    ensures LastGood(Sanitized(vals, fallback)[..i]) ==
      if LastGood(vals[..i]).Some? then LastGood(vals[..i])
      else if IsGood(fallback) && i > 0 then Some(fallback)
      else None
  {
    if i > 0 {
      var r := Sanitized(vals, fallback);
      LastGoodOfSanitized(vals, fallback, i - 1);
      SanitizedAt(vals, fallback, i - 1);
      assert r[..i][..i - 1] == r[..i - 1];
      assert vals[..i][..i - 1] == vals[..i - 1];
    }
  }

  /** Filling twice is filling once, whatever the fallback. */
  lemma SanitizeIdempotent(vals: seq<Float>, fallback: Float)
    ensures Sanitized(Sanitized(vals, fallback), fallback) == Sanitized(vals, fallback)
  {
    var r := Sanitized(vals, fallback);
    forall i | 0 <= i < |r| ensures Sanitized(r, fallback)[i] == r[i] {
      SanitizedAt(r, fallback, i);
      SanitizedAt(vals, fallback, i);
      LastGoodOfSanitized(vals, fallback, i);
    }
  }

  // ---------------------------------------------------------------------------
  // 3-hour boundaries (`floor_to_3h`)
  // ---------------------------------------------------------------------------

  function DayOf(t: int): int { t / US_PER_DAY }

  function HourOf(t: int): int { (t % US_PER_DAY) / US_PER_HOUR }

  /** Division with remainder is unique. */
  lemma DivMod(x: int, q: int, rem: int, m: int)
    requires 0 < m && 0 <= rem < m && x == q * m + rem
    ensures x / m == q && x % m == rem
  {
    var q0, r0 := x / m, x % m;
    assert (q - q0) * m == q * m - q0 * m == r0 - rem;
    if q > q0 {
      MulAtLeast(q - q0, m);
    } else if q < q0 {
      MulAtLeast(q0 - q, m);
    }
  }

  lemma MulAtLeast(a: int, m: int)
    requires a >= 1 && m > 0
    ensures a * m >= m
  {
  }

  /** `floor_to_3h`: the same UTC date with the hour rounded down to a multiple
      of 3 and minutes, seconds and microseconds set to zero. */
  function FloorTo3h(t: int): (r: int)
    ensures r <= t < r + US_PER_BIN
    ensures r % US_PER_BIN == 0 && r % US_PER_HOUR == 0
    ensures DayOf(r) == DayOf(t) && HourOf(r) % 3 == 0 && HourOf(r) <= HourOf(t)
  {
    var d, h := DayOf(t), HourOf(t);
    var hf := h / 3 * 3;
    var rem := hf * US_PER_HOUR;
    var r := d * US_PER_DAY + rem;
    DivMod(t, d, t % US_PER_DAY, US_PER_DAY);
    DivMod(t % US_PER_DAY, h, (t % US_PER_DAY) % US_PER_HOUR, US_PER_HOUR);
    DivMod(r, 8 * d + h / 3, 0, US_PER_BIN);
    DivMod(r, 24 * d + hf, 0, US_PER_HOUR);
    DivMod(r, d, rem, US_PER_DAY);
    DivMod(rem, hf, 0, US_PER_HOUR);
    DivMod(hf, h / 3, 0, 3);
    r
  }

  // ---------------------------------------------------------------------------
  // Daily rows expanded into 3-hour bins (`load_dgd_planetary_timeseries`)
  // ---------------------------------------------------------------------------

  /** One data row of the daily geomagnetic indices: its date, as a day number
      since 1970-01-01, and its eight planetary K values. */
  datatype DailyRow = DailyRow(day: int, planK: seq<Float>)

  datatype KpBin = KpBin(time: int, kp: Float)

  predicate WellFormed(rows: seq<DailyRow>)
  {
    forall d :: 0 <= d < |rows| ==> |rows[d].planK| == KP_VPD
  }

  predicate DaysIncreasing(rows: seq<DailyRow>)
  {
    forall a, b :: 0 <= a < b < |rows| ==> rows[a].day < rows[b].day
  }

  predicate TimesIncreasing(bins: seq<KpBin>)
  {
    forall a, b :: 0 <= a < b < |bins| ==> bins[a].time < bins[b].time
  }

  function DayBins(row: DailyRow): seq<KpBin>
    requires |row.planK| == KP_VPD
  {
    seq(KP_VPD, i requires 0 <= i < KP_VPD => KpBin(row.day * US_PER_DAY + i * US_PER_BIN, row.planK[i]))
  }

  /** All rows' bins, day after day. */
  function Expanded(rows: seq<DailyRow>): (r: seq<KpBin>)
    requires WellFormed(rows)
    ensures |r| == KP_VPD * |rows|
  {
    if rows == [] then []
    else Expanded(rows[..|rows| - 1]) + DayBins(rows[|rows| - 1])
  }

  /** The nested loop of `load_dgd_planetary_timeseries`: 8 bins per daily row. */
  method ExpandDailyRows(rows: seq<DailyRow>) returns (bins: seq<KpBin>)
    requires WellFormed(rows)
    ensures |bins| == KP_VPD * |rows|
    ensures bins == Expanded(rows)
  {
    bins := [];
    for d := 0 to |rows|
      invariant bins == Expanded(rows[..d])
    {
      var row := rows[d];
      ghost var before := bins;
      for i := 1 to KP_VPD + 1
        invariant bins == before + DayBins(row)[..i - 1]
      {
        bins := bins + [KpBin(row.day * US_PER_DAY + (i - 1) * US_PER_BIN, row.planK[i - 1])];
      }
      assert rows[..d + 1][..d] == rows[..d];
      assert DayBins(row)[..KP_VPD] == DayBins(row);
    }
    assert rows[..|rows|] == rows;
  }

  /** Bin `k` of day `d` is stamped at that day's midnight plus `3k` hours. */
  lemma {:induction false} ExpandedAt(rows: seq<DailyRow>, d: nat, k: nat)
    requires WellFormed(rows) && d < |rows| && k < KP_VPD
    ensures Expanded(rows)[KP_VPD * d + k] ==
      KpBin(rows[d].day * US_PER_DAY + k * US_PER_BIN, rows[d].planK[k])
  {
    var n := |rows| - 1;
    if d < n {
      ExpandedAt(rows[..n], d, k);
    }
  }

  /** Bin `ka` of day row `da` comes before bin `kb` of a later row, or a later bin of the same row. */
  lemma {:induction false} ExpandedPairOrder(rows: seq<DailyRow>, da: nat, ka: nat, db: nat, kb: nat)
    requires WellFormed(rows) && DaysIncreasing(rows)
    requires da < |rows| && db < |rows| && ka < KP_VPD && kb < KP_VPD
    requires da < db || (da == db && ka < kb)
    ensures Expanded(rows)[KP_VPD * da + ka].time < Expanded(rows)[KP_VPD * db + kb].time
  {
    ExpandedAt(rows, da, ka);
    ExpandedAt(rows, db, kb);
    var ta := rows[da].day * US_PER_DAY + ka * US_PER_BIN;
    var tb := rows[db].day * US_PER_DAY + kb * US_PER_BIN;
    if da < db {
      assert rows[da].day + 1 <= rows[db].day;
      assert ta < (rows[da].day + 1) * US_PER_DAY <= tb;
    }
  }

  /** Rows in increasing date order give bins in strictly increasing time order,
      so re-sorting the bins by time changes nothing. */
  lemma ExpandedIncreasing(rows: seq<DailyRow>)
    requires WellFormed(rows) && DaysIncreasing(rows)
    ensures TimesIncreasing(Expanded(rows))
  {
    var e := Expanded(rows);
    forall a, b | 0 <= a < b < |e| ensures e[a].time < e[b].time {
      var da, ka := a / KP_VPD, a % KP_VPD;
      var db, kb := b / KP_VPD, b % KP_VPD;
      assert a == KP_VPD * da + ka && b == KP_VPD * db + kb;
      ExpandedPairOrder(rows, da, ka, db, kb);
    }
  }

  function KpValues(bins: seq<KpBin>): (r: seq<Float>)
    ensures |r| == |bins| && forall i :: 0 <= i < |bins| ==> r[i] == bins[i].kp
  {
    seq(|bins|, i requires 0 <= i < |bins| => bins[i].kp)
  }

  function WithKp(bins: seq<KpBin>, kps: seq<Float>): (r: seq<KpBin>)
    requires |kps| == |bins|
    ensures |r| == |bins| && forall i :: 0 <= i < |bins| ==> r[i] == KpBin(bins[i].time, kps[i])
  {
    seq(|bins|, i requires 0 <= i < |bins| => KpBin(bins[i].time, kps[i]))
  }

  /** The planetary Kp time series: expanded bins, Kp column persistence-filled with fallback 0. */
  function DgdSeries(rows: seq<DailyRow>): seq<KpBin>
    requires WellFormed(rows)
  {
    var e := Expanded(rows);
    WithKp(e, Sanitized(KpValues(e), Finite(0.0)))
  }

  /** `load_dgd_planetary_timeseries` after the text has been split into rows. */
  method LoadDgdSeries(rows: seq<DailyRow>) returns (res: Result<seq<KpBin>, KpError>)
    requires WellFormed(rows)
    ensures rows == [] <==> res == Failure(NoDgdRows)
    ensures res.Success? <==> rows != []
    ensures res.Success? ==> res.value == DgdSeries(rows)
    ensures res.Success? ==> (|res.value| == KP_VPD * |rows| &&
      forall i :: 0 <= i < |res.value| ==>
        res.value[i].time == Expanded(rows)[i].time && IsGood(res.value[i].kp) &&
        (IsGood(Expanded(rows)[i].kp) ==> res.value[i].kp == Expanded(rows)[i].kp))
  {
    if rows == [] {
      return Failure(NoDgdRows);
    }
    var bins := ExpandDailyRows(rows);
    var kp := SanitizeSeries(KpValues(bins), Finite(0.0));
    SanitizedAllGood(KpValues(bins), Finite(0.0));
    SanitizedKeepsAllGood(KpValues(bins), Finite(0.0));
    return Success(WithKp(bins, kp));
  }

  // ---------------------------------------------------------------------------
  // Forecast table (`load_forecast_16_bins`)
  // ---------------------------------------------------------------------------

  /** One `HH-HHUT d1 d2 d3` row of the forecast table. */
  datatype ForecastRow = ForecastRow(day1: Float, day2: Float, day3: Float)

  /** The lines after the table header that match the row pattern, in order
      (a non-matching line is `None`). */
  function Matches(lines: seq<Option<ForecastRow>>): seq<ForecastRow>
  {
    if lines == [] then []
    else (if lines[0].Some? then [lines[0].value] else []) + Matches(lines[1..])
  }

  lemma {:induction false} MatchesAppend(a: seq<Option<ForecastRow>>, b: seq<Option<ForecastRow>>)
    ensures Matches(a + b) == Matches(a) + Matches(b)
  {
    if a != [] {
      MatchesAppend(a[1..], b);
      assert (a + b)[0] == a[0];
      assert (a + b)[1..] == a[1..] + b;
      var head := if a[0].Some? then [a[0].value] else [];
      assert Matches(a + b) == head + Matches(a[1..] + b);
      assert Matches(a) == head + Matches(a[1..]);
    } else {
      assert a + b == b;
    }
  }

  /** The first eight matching rows, or all of them when there are fewer. */
  function TableRows(lines: seq<Option<ForecastRow>>): seq<ForecastRow>
  {
    var m := Matches(lines);
    if |m| >= KP_VPD then m[..KP_VPD] else m
  }

  /** The row loop of `load_forecast_16_bins`: collect matches, stop at eight. */
  method CollectForecastRows(lines: seq<Option<ForecastRow>>) returns (rows: seq<ForecastRow>)
    ensures |rows| <= KP_VPD
    ensures rows == TableRows(lines)
  {
    rows := [];
    var i := 0;
    while i < |lines|
      invariant 0 <= i <= |lines|
      invariant rows == Matches(lines[..i]) && |rows| < KP_VPD
    {
      assert lines[..i + 1] == lines[..i] + [lines[i]];
      MatchesAppend(lines[..i], [lines[i]]);
      assert Matches([lines[i]]) == if lines[i].Some? then [lines[i].value] else [];
      if lines[i].Some? {
        rows := rows + [lines[i].value];
        if |rows| == KP_VPD {
          assert lines == lines[..i + 1] + lines[i + 1..];
          MatchesAppend(lines[..i + 1], lines[i + 1..]);
          return;
        }
      }
      i := i + 1;
    }
    assert lines[..i] == lines;
  }

  function DayValue(row: ForecastRow, d: nat): Float
    requires d < 3
  {
    if d == 0 then row.day1 else if d == 1 then row.day2 else row.day3
  }

  /** The 24 forecast bins: all of day 1, then day 2, then day 3. */
  function Seq24(rows: seq<ForecastRow>): (r: seq<Float>)
    requires |rows| == KP_VPD
    ensures |r| == 3 * KP_VPD
    ensures forall d, h :: 0 <= d < 3 && 0 <= h < KP_VPD ==> r[KP_VPD * d + h] == DayValue(rows[h], d)
  {
    var day1 := seq(KP_VPD, i requires 0 <= i < KP_VPD => rows[i].day1);
    var day2 := seq(KP_VPD, i requires 0 <= i < KP_VPD => rows[i].day2);
    var day3 := seq(KP_VPD, i requires 0 <= i < KP_VPD => rows[i].day3);
    day1 + day2 + day3
  }

  /** The 16 bins of the 24 that start at `offset`. */
  function ForecastSlice(rows: seq<ForecastRow>, offset: int): (r: seq<Float>)
    requires |rows| == KP_VPD && 0 <= offset <= 3 * KP_VPD - FCST_NV
    ensures |r| == FCST_NV && forall i :: 0 <= i < FCST_NV ==> r[i] == Seq24(rows)[offset + i]
  {
    Seq24(rows)[offset..offset + FCST_NV]
  }

  /** The slice-and-fill step of `load_forecast_16_bins`: exactly eight rows are
      needed, and the offset must keep all 16 bins inside the 24; it is never
      clamped. */
  function Forecast16(rows: seq<ForecastRow>, offset: int): (r: Result<seq<Float>, KpError>)
    ensures r.Success? <==> |rows| == KP_VPD && 0 <= offset <= 3 * KP_VPD - FCST_NV
    ensures |rows| != KP_VPD ==> r == Failure(ForecastRowCount(|rows|))
    ensures |rows| == KP_VPD && r.Failure? ==> r == Failure(BadOffset(offset))
    ensures r.Success? ==> (|rows| == KP_VPD && 0 <= offset <= 3 * KP_VPD - FCST_NV &&
      |r.value| == FCST_NV &&
      forall i :: 0 <= i < FCST_NV ==>
        IsGood(r.value[i]) &&
        (IsGood(ForecastSlice(rows, offset)[i]) ==> r.value[i] == ForecastSlice(rows, offset)[i]))
  {
    if |rows| != KP_VPD then Failure(ForecastRowCount(|rows|))
    else
      var seq24 := Seq24(rows);
      if offset < 0 || offset + FCST_NV > |seq24| then Failure(BadOffset(offset))
      else
        var slice := ForecastSlice(rows, offset);
        SanitizedAllGood(slice, Finite(0.0));
        SanitizedKeepsAllGood(slice, Finite(0.0));
        Success(Sanitized(slice, Finite(0.0)))
  }

  /** `load_forecast_16_bins` after the text has been split into lines: `None`
      when the table header is missing, otherwise the lines after it. */
  method LoadForecast16(table: Option<seq<Option<ForecastRow>>>, offset: int)
    returns (res: Result<seq<Float>, KpError>)
    ensures table.None? ==> res == Failure(NoForecastHeader)
    ensures table.Some? ==> res == Forecast16(TableRows(table.value), offset)
  {
    if table.None? {
      return Failure(NoForecastHeader);
    }
    var rows := CollectForecastRows(table.value);
    res := Forecast16(rows, offset);
  }

  // ---------------------------------------------------------------------------
  // Assembly of the 72 values (`build_kp72`)
  // ---------------------------------------------------------------------------

  /** The newest bin time the history may contain. */
  function HistEnd(now: int, lagBins: int): int
  {
    FloorTo3h(now) - lagBins * US_PER_BIN
  }

  /** The bins with `time <= end`, in their original order. */
  function UpTo(ts: seq<KpBin>, end: int): (r: seq<KpBin>)
    ensures |r| <= |ts|
    ensures forall i :: 0 <= i < |r| ==> r[i].time <= end && r[i] in ts
  {
    if ts == [] then []
    else
      var n := |ts| - 1;
      UpTo(ts[..n], end) + (if ts[n].time <= end then [ts[n]] else [])
  }

  /** Every bin at or before the end is kept. */
  lemma {:induction false} UpToComplete(ts: seq<KpBin>, end: int)
    ensures forall i :: 0 <= i < |ts| && ts[i].time <= end ==> ts[i] in UpTo(ts, end)
  {
    if ts != [] {
      var n := |ts| - 1;
      UpToComplete(ts[..n], end);
      forall i | 0 <= i < |ts| && ts[i].time <= end ensures ts[i] in UpTo(ts, end) {
        if i < n {
          assert ts[..n][i] == ts[i];
        }
      }
    }
  }

  /** On a time-ordered series the kept bins are exactly its oldest ones, in
      order, and every bin after them is past the end. */
  lemma {:induction false} UpToPrefix(ts: seq<KpBin>, end: int)
    requires TimesIncreasing(ts)
    ensures UpTo(ts, end) == ts[..|UpTo(ts, end)|]
    ensures forall i :: |UpTo(ts, end)| <= i < |ts| ==> ts[i].time > end
  {
    if ts != [] {
      var n := |ts| - 1;
      TimesIncreasingPrefix(ts, n);
      UpToPrefix(ts[..n], end);
      if ts[n].time <= end {
        UpToPrefixKeep(ts, end);
      } else {
        UpToPrefixDrop(ts, end);
      }
    }
  }

  /** The step of UpToPrefix when the newest bin is kept: then every bin is. */
  lemma UpToPrefixKeep(ts: seq<KpBin>, end: int)
    requires ts != [] && TimesIncreasing(ts) && ts[|ts| - 1].time <= end
    requires var init := ts[..|ts| - 1];
      UpTo(init, end) == init[..|UpTo(init, end)|] &&
      forall i :: |UpTo(init, end)| <= i < |init| ==> init[i].time > end
    ensures UpTo(ts, end) == ts
  {
    var n := |ts| - 1;
    var init := ts[..n];
    var m := |UpTo(init, end)|;
    assert init[..m] + [ts[n]] == ts;
  }

  /** The step of UpToPrefix when the newest bin is past the end. */
  lemma UpToPrefixDrop(ts: seq<KpBin>, end: int)
    requires ts != [] && ts[|ts| - 1].time > end
    requires var init := ts[..|ts| - 1];
      UpTo(init, end) == init[..|UpTo(init, end)|] &&
      forall i :: |UpTo(init, end)| <= i < |init| ==> init[i].time > end
    ensures UpTo(ts, end) == ts[..|UpTo(ts, end)|]
    ensures forall i :: |UpTo(ts, end)| <= i < |ts| ==> ts[i].time > end
  {
    var n := |ts| - 1;
    var init := ts[..n];
    assert UpTo(ts, end) == UpTo(init, end);
    var m := |UpTo(init, end)|;
    assert init[..m] == ts[..m];
    assert forall i :: m <= i < n ==> ts[i] == init[i];
  }

  lemma TimesIncreasingPrefix(ts: seq<KpBin>, n: nat)
    requires TimesIncreasing(ts) && n <= |ts|
    ensures TimesIncreasing(ts[..n])
  {
  }

  lemma {:induction false} UpToEmpty(ts: seq<KpBin>, end: int)
    ensures UpTo(ts, end) == [] <==> forall i :: 0 <= i < |ts| ==> ts[i].time > end
  {
    if ts != [] {
      var n := |ts| - 1;
      UpToEmpty(ts[..n], end);
      assert forall i :: 0 <= i < n ==> ts[..n][i] == ts[i];
    }
  }

  /** `tail(56)` of the history, left-padded to 56 by repeating its oldest value. */
  function Hist56(hist: seq<Float>): (r: seq<Float>)
    requires hist != []
    ensures |r| == HIST_NV
    ensures forall j :: 0 <= j < HIST_NV && HIST_NV - |hist| <= j ==> r[j] == hist[|hist| - HIST_NV + j]
    ensures forall j :: 0 <= j < HIST_NV - |hist| ==> r[j] == hist[0]
  {
    var tail := if |hist| > HIST_NV then hist[|hist| - HIST_NV..] else hist;
    if |tail| < HIST_NV then seq(HIST_NV - |tail|, _ => tail[0]) + tail else tail
  }

  lemma Hist56Good(hist: seq<Float>)
    requires hist != [] && forall i :: 0 <= i < |hist| ==> IsGood(hist[i])
    ensures forall j :: 0 <= j < HIST_NV ==> IsGood(Hist56(hist)[j])
  {
    var r := Hist56(hist);
    forall j | 0 <= j < HIST_NV ensures IsGood(r[j]) {
      if j < HIST_NV - |hist| {
        assert r[j] == hist[0];
      } else {
        assert r[j] == hist[|hist| - HIST_NV + j];
      }
    }
  }

  /** `build_kp72` once both tables are loaded: history up to the lagged 3-hour
      boundary, padded to 56, then the 16 forecast values, filled once more
      with the newest historic value as fallback. */
  function BuildKp72(ts: seq<KpBin>, fcst16: seq<Float>, now: int, lagBins: int): (r: Result<seq<Float>, KpError>)
    ensures r.Success? <==> UpTo(ts, HistEnd(now, lagBins)) != [] && |fcst16| == FCST_NV
    ensures UpTo(ts, HistEnd(now, lagBins)) == [] ==> r == Failure(NoHistory)
    ensures r.Success? ==> (|r.value| == KP_NV &&
      forall i :: 0 <= i < FCST_NV && IsGood(fcst16[i]) ==> r.value[HIST_NV + i] == fcst16[i])
    ensures r.Success? && (forall i :: 0 <= i < |ts| ==> IsGood(ts[i].kp)) ==>
      r.value[..HIST_NV] == Hist56(KpValues(UpTo(ts, HistEnd(now, lagBins)))) &&
      forall i :: 0 <= i < KP_NV ==> IsGood(r.value[i])
  {
    var hist := KpValues(UpTo(ts, HistEnd(now, lagBins)));
    if hist == [] then Failure(NoHistory)
    else
      var hist56 := Hist56(hist);
      var vals := hist56 + fcst16;
      var out := Sanitized(vals, hist56[HIST_NV - 1]);
      SanitizedKeepsAllGood(vals, hist56[HIST_NV - 1]);
      assert forall i :: 0 <= i < |fcst16| ==> vals[HIST_NV + i] == fcst16[i];
      if |out| != KP_NV then Failure(BadLength(|out|))
      else
        BuildKp72Good(hist, hist56, fcst16, out);
        Success(out)
  }

  lemma BuildKp72Good(hist: seq<Float>, hist56: seq<Float>, fcst16: seq<Float>, out: seq<Float>)
    requires hist != [] && hist56 == Hist56(hist)
    requires out == Sanitized(hist56 + fcst16, hist56[HIST_NV - 1])
    ensures (forall i :: 0 <= i < |hist| ==> IsGood(hist[i])) ==>
      out[..HIST_NV] == hist56 && forall i :: 0 <= i < |out| ==> IsGood(out[i])
  {
    if forall i :: 0 <= i < |hist| ==> IsGood(hist[i]) {
      Hist56Good(hist);
      var vals := hist56 + fcst16;
      SanitizedAllGood(vals, hist56[HIST_NV - 1]);
      SanitizedKeepsAllGood(vals, hist56[HIST_NV - 1]);
      assert forall i :: 0 <= i < HIST_NV ==> vals[i] == hist56[i];
    }
  }

  /** The whole producer with `now` as a parameter: load the history, load the
      forecast, assemble. Published values are always good, and the forecast part
      is the configured slice of the table wherever the table's value was good. */
  method BuildKpStream(dgd: seq<DailyRow>, table: Option<seq<Option<ForecastRow>>>,
                       now: int, lagBins: int, offset: int)
    returns (res: Result<seq<Float>, KpError>)
    requires WellFormed(dgd)
    ensures dgd == [] ==> res == Failure(NoDgdRows)
    ensures res == (
      if dgd == [] then Failure(NoDgdRows)
      else if table.None? then Failure(NoForecastHeader)
      else if Forecast16(TableRows(table.value), offset).Failure? then Failure(Forecast16(TableRows(table.value), offset).error)
      else BuildKp72(DgdSeries(dgd), Forecast16(TableRows(table.value), offset).value, now, lagBins))
    ensures res.Success? <==>
      dgd != [] && table.Some? && |TableRows(table.value)| == KP_VPD && 0 <= offset <= 3 * KP_VPD - FCST_NV &&
      UpTo(DgdSeries(dgd), HistEnd(now, lagBins)) != []
    ensures (dgd != [] && table.Some? && |TableRows(table.value)| == KP_VPD && 0 <= offset <= 3 * KP_VPD - FCST_NV &&
             UpTo(DgdSeries(dgd), HistEnd(now, lagBins)) == []) ==> res == Failure(NoHistory)
    ensures res.Success? ==> |res.value| == KP_NV && forall i :: 0 <= i < KP_NV ==> IsGood(res.value[i])
    ensures res.Success? ==> res.value[..HIST_NV] == Hist56(KpValues(UpTo(DgdSeries(dgd), HistEnd(now, lagBins))))
    ensures res.Success? ==> (
      table.Some? && |TableRows(table.value)| == KP_VPD && 0 <= offset <= 3 * KP_VPD - FCST_NV &&
      forall i :: 0 <= i < FCST_NV && IsGood(ForecastSlice(TableRows(table.value), offset)[i]) ==>
        res.value[HIST_NV + i] == ForecastSlice(TableRows(table.value), offset)[i])
  {
    var dgdRes := LoadDgdSeries(dgd);
    if dgdRes.Failure? {
      return Failure(dgdRes.error);
    }
    var fcstRes := LoadForecast16(table, offset);
    if fcstRes.Failure? {
      return Failure(fcstRes.error);
    }
    var ts, fcst16 := dgdRes.value, fcstRes.value;
    assert forall i :: 0 <= i < |ts| ==> IsGood(ts[i].kp);
    res := BuildKp72(ts, fcst16, now, lagBins);
  }
}
