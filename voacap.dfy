/** The VOACAP band-conditions table: 24 hourly rows of nine band scores
    (160 m to 10 m), each score gated on the prediction's signal, MUF
    probability and SNR and clamped to [0, 1]. Rows are cached on disk under
    a key derived from the run's parameters; the program prints the row of the
    requested hour, a header, and then the rows for hours 1..23 and 0. */
module BandConditions {
  import opened Common

  const NBANDS: nat := 9
  const NHOURS: nat := 24
  const MUF_DEAD_THRESHOLD: real := 0.0001
  const KEY_MULTIPLIER: int := 1315423911
  const EXIT_OK: int := 0
  const EXIT_BAD_ARGS: int := 2
  /** The status of an uncaught Python exception. */
  const EXIT_CRASH: int := 1

  // ---------------------------------------------------------------------------
  // Small conversions
  // ---------------------------------------------------------------------------

  /** `clamp01`: NaN to 0, then `max(0.0, min(1.0, x))`. */
  function Clamp01(f: Float): (r: real)
    ensures 0.0 <= r <= 1.0
    ensures f.NaN? ==> r == 0.0
    ensures f.Finite? && 0.0 <= f.x <= 1.0 ==> r == f.x
    ensures (f.Finite? && f.x < 0.0) || f == Inf(true) ==> r == 0.0
    ensures (f.Finite? && f.x > 1.0) || f == Inf(false) ==> r == 1.0
  {
    match f
    case NaN => 0.0
    case Inf(negative) => if negative then 0.0 else 1.0
    case Finite(x) =>
      var m := if x < 1.0 then x else 1.0;
      if m > 0.0 then m else 0.0
  }

  /** `mode_int_to_string`: the mode number never reaches the output. */
  function ModeName(mode: int): (r: string)
    ensures r == "CW"
  {
    "CW"
  }

  /** `path_int_to_string`. */
  function PathName(path: int): (r: string)
    ensures r == "LP" <==> path == 1
    ensures r == "SP" <==> path != 1
  {
    if path == 1 then "LP" else "SP"
  }

  /** `abs(v) < 1e-9`; false for NaN and the infinities. */
  predicate NearZero(v: Float)
  {
    match v
    case Finite(x) => -0.000000001 < x < 0.000000001
    case NaN => false
    case Inf(_) => false
  }

  /** `resolve_rx`: a receiver at (0, 0) stands for "use the default receiver"
      when both default coordinates are given. */
  function ResolveRx(rxLat: Float, rxLng: Float, defLat: Option<Float>, defLon: Option<Float>): (r: (Float, Float))
    ensures NearZero(rxLat) && NearZero(rxLng) && defLat.Some? && defLon.Some? ==>
      r == (defLat.value, defLon.value)
    ensures !NearZero(rxLat) || !NearZero(rxLng) || defLat.None? || defLon.None? ==>
      r == (rxLat, rxLng)
  {
    if NearZero(rxLat) && NearZero(rxLng) && defLat.Some? && defLon.Some? then (defLat.value, defLon.value)
    else (rxLat, rxLng)
  }

  // ---------------------------------------------------------------------------
  // Scores
  // ---------------------------------------------------------------------------

  /** The signal part of a prediction: `muf_day` (absent reads as 0.0) and an
      optional `snr_xx`. */
  datatype Signal = Signal(mufDay: Option<Float>, snrXX: Option<Float>)

  /** A prediction for one band: an optional signal and an optional `snr_xx`. */
  datatype Prediction = Prediction(signal: Option<Signal>, snrXX: Option<Float>)

  /** The sigmoid-times-MUF formula, kept abstract: `(snr_xx, muf_day) -> score`. */
  type Shape = (Float, Float) -> Float

  function MufDay(s: Signal): Float
  {
    if s.mufDay.Some? then s.mufDay.value else Finite(0.0)
  }

  /** The `snr_xx` of the prediction, else that of its signal. */
  function SnrOf(p: Prediction, s: Signal): Option<Float>
  {
    if p.snrXX.Some? then p.snrXX else s.snrXX
  }

  /** `score_prediction`. */
  function Score(p: Prediction, shape: Shape): (r: real)
    ensures 0.0 <= r <= 1.0
    ensures p.signal.None? ==> r == 0.0
    ensures p.signal.Some? && LessThan(MufDay(p.signal.value), MUF_DEAD_THRESHOLD) ==> r == 0.0
    ensures p.signal.Some? && p.snrXX.None? && p.signal.value.snrXX.None? ==> r == 0.0
    ensures p.signal.Some? && !LessThan(MufDay(p.signal.value), MUF_DEAD_THRESHOLD) ==>
      var s := p.signal.value;
      (p.snrXX.Some? ==> r == Clamp01(shape(p.snrXX.value, MufDay(s)))) &&
      (p.snrXX.None? && s.snrXX.Some? ==> r == Clamp01(shape(s.snrXX.value, MufDay(s))))
  {
    if p.signal.None? then 0.0
    else
      var s := p.signal.value;
      var muf := MufDay(s);
      if LessThan(muf, MUF_DEAD_THRESHOLD) then 0.0
      else
        var snr := SnrOf(p, s);
        if snr.None? then 0.0
        else Clamp01(shape(snr.value, muf))
  }

  /** `compute_hour_row` after `predict`: one score per band, zero-padded or
      truncated to exactly nine. */
  function HourRow(preds: seq<Prediction>, shape: Shape): (r: seq<real>)
    ensures |r| == NBANDS
    ensures forall i :: 0 <= i < NBANDS ==> 0.0 <= r[i] <= 1.0
    ensures forall i :: 0 <= i < NBANDS && i < |preds| ==> r[i] == Score(preds[i], shape)
    ensures forall i :: |preds| <= i < NBANDS ==> r[i] == 0.0
  {
    var n := if |preds| < NBANDS then |preds| else NBANDS;
    var row := seq(n, i requires 0 <= i < n => Score(preds[i], shape));
    (row + seq(NBANDS, _ => 0.0))[..NBANDS]
  }

  /** `compute_rows`: the engine gives the band predictions for each UTC hour. */
  function ComputeRows(engine: int -> seq<Prediction>, shape: Shape): (r: seq<seq<real>>)
    ensures |r| == NHOURS
    ensures forall h :: 0 <= h < NHOURS ==> r[h] == HourRow(engine(h), shape)
  {
    seq(NHOURS, h => HourRow(engine(h), shape))
  }

  // ---------------------------------------------------------------------------
  // Cache key
  // ---------------------------------------------------------------------------

  newtype byte = b: int | 0 <= b < 256

  function Sum(s: seq<byte>): (n: nat)
  {
    if s == [] then 0 else Sum(s[..|s| - 1]) + s[|s| - 1] as int
  }

  lemma {:induction false} SumAppend(a: seq<byte>, b: seq<byte>)
    ensures Sum(a + b) == Sum(a) + Sum(b)
    decreases |b|
  {
    if b == [] {
      assert a + b == a;
    } else {
      var n := |b| - 1;
      SumAppend(a, b[..n]);
      assert (a + b)[..|a + b| - 1] == a + b[..n];
    }
  }

  function DigitChar(d: nat): char
    requires d < 10
  {
    "0123456789"[d]
  }

  predicate IsDigit(c: char)
  {
    '0' <= c <= '9'
  }

  /** `str(n)` for a non-negative integer. */
  function Decimal(n: nat): (r: string)
    ensures |r| >= 1 && forall i :: 0 <= i < |r| ==> IsDigit(r[i])
  {
    if n < 10 then [DigitChar(n)] else Decimal(n / 10) + [DigitChar(n % 10)]
  }

  /** `int(s)` for a string of decimal digits. */
  function ParseDecimal(s: string): nat
    requires forall i :: 0 <= i < |s| ==> IsDigit(s[i])
  {
    if s == [] then 0
    else
      var n := |s| - 1;
      assert IsDigit(s[n]);
      assert forall i :: 0 <= i < n ==> s[..n][i] == s[i];
      10 * ParseDecimal(s[..n]) + (s[n] as int - '0' as int)
  }

  /** Reading back the decimal string gives the number. */
  lemma {:induction false} DecimalRoundTrip(n: nat)
    ensures ParseDecimal(Decimal(n)) == n
  {
    if n < 10 {
      DigitValue(n);
      assert Decimal(n)[..0] == [];
    } else {
      DecimalRoundTrip(n / 10);
      var d := Decimal(n);
      assert d == Decimal(n / 10) + [DigitChar(n % 10)];
      assert d[..|d| - 1] == Decimal(n / 10);
      DigitValue(n % 10);
      assert n == 10 * (n / 10) + n % 10;
    }
  }

  lemma DigitValue(d: nat)
    requires d < 10
    ensures DigitChar(d) as int - '0' as int == d
  {
  }

  function Abs(v: int): (r: nat)
    ensures r == v || r == -v
  {
    if v < 0 then -v else v
  }

  /** `cache_key` over the canonical UTF-8 bytes of the parameters:
      `str(abs(sum(s) + 1315423911 * len(s)))`. */
  function CacheKey(bytes: seq<byte>): (r: string)
    ensures forall i :: 0 <= i < |r| ==> IsDigit(r[i])
    ensures ParseDecimal(r) == Sum(bytes) + KEY_MULTIPLIER * |bytes|
  {
    var v := Sum(bytes) + KEY_MULTIPLIER * |bytes|;
    DecimalRoundTrip(Abs(v));
    Decimal(Abs(v))
  }

  /** Swapping two bytes leaves the key unchanged. */
  lemma CacheKeySwap(p: seq<byte>, x: byte, q: seq<byte>, y: byte, s: seq<byte>)
    ensures CacheKey(p + [x] + q + [y] + s) == CacheKey(p + [y] + q + [x] + s)
  {
    SumAppend(p, [x]);
    SumAppend(p + [x], q);
    SumAppend(p + [x] + q, [y]);
    SumAppend(p + [x] + q + [y], s);
    SumAppend(p, [y]);
    SumAppend(p + [y], q);
    SumAppend(p + [y] + q, [x]);
    SumAppend(p + [y] + q + [x], s);
    assert Sum([x]) == x as int && Sum([y]) == y as int;
  }

  /** ASCII text as bytes. */
  function Ascii(s: string): seq<byte>
    requires forall i :: 0 <= i < |s| ==> s[i] as int < 128
  {
    seq(|s|, i requires 0 <= i < |s| => s[i] as int as byte)
  }

  /** Canonical parameter bytes for two requests that differ in month and year. */
  const MARCH_2025: string := "{\"month\":3,\"year\":2025}"
  const MAY_2023: string := "{\"month\":5,\"year\":2023}"
  const MARCH_2025_BYTES: seq<byte> := Ascii(MARCH_2025)
  const MAY_2023_BYTES: seq<byte> := Ascii(MAY_2023)

  lemma March2025Bytes()
    ensures Ascii(MARCH_2025) ==
      Ascii("{\"month\":") + ['3' as int as byte] + Ascii(",\"year\":202") + ['5' as int as byte] + Ascii("}")
  {
  }

  lemma May2023Bytes()
    ensures Ascii(MAY_2023) ==
      Ascii("{\"month\":") + ['5' as int as byte] + Ascii(",\"year\":202") + ['3' as int as byte] + Ascii("}")
  {
  }

  /** Two different parameter sets whose canonical bytes differ only by a
      swapped digit (month 3 of 2025 against month 5 of 2023) share a key. */
  lemma CacheKeyCollision()
    ensures Ascii(MARCH_2025) != Ascii(MAY_2023)
    ensures CacheKey(Ascii(MARCH_2025)) == CacheKey(Ascii(MAY_2023))
  {
    var p, q, s := Ascii("{\"month\":"), Ascii(",\"year\":202"), Ascii("}");
    March2025Bytes();
    May2023Bytes();
    assert Ascii(MARCH_2025)[9] != Ascii(MAY_2023)[9];
    CacheKeySwap(p, '3' as int as byte, q, '5' as int as byte, s);
  }

  /** The bytes read as a base-256 number behind a leading 1. */
  function Encode(s: seq<byte>): (n: nat)
    ensures n >= 1
    ensures s != [] ==> n >= 256
  {
    if s == [] then 1 else Encode(s[..|s| - 1]) * 256 + s[|s| - 1] as int
  }

  lemma {:induction false} EncodeInjective(a: seq<byte>, b: seq<byte>)
    requires Encode(a) == Encode(b)
    ensures a == b
    decreases |a|
  {
    if a != [] && b != [] {
      var m, n := |a| - 1, |b| - 1;
      var ea, eb := Encode(a[..m]), Encode(b[..n]);
      assert ea * 256 + a[m] as int == eb * 256 + b[n] as int;
      assert a[m] == b[n] && ea == eb;
      EncodeInjective(a[..m], b[..n]);
      assert a == a[..m] + [a[m]] && b == b[..n] + [b[n]];
    }
  }

  /** A key that determines the canonical bytes: the decimal of their base-256 encoding. */
  function CacheKeyExact(bytes: seq<byte>): (r: string)
    ensures forall i :: 0 <= i < |r| ==> IsDigit(r[i])
  {
    Decimal(Encode(bytes))
  }

  /** Different parameters never share a key. */
  lemma CacheKeyExactInjective(a: seq<byte>, b: seq<byte>)
    requires CacheKeyExact(a) == CacheKeyExact(b)
    ensures a == b
  {
    DecimalRoundTrip(Encode(a));
    DecimalRoundTrip(Encode(b));
    EncodeInjective(a, b);
  }

  // ---------------------------------------------------------------------------
  // Cache files
  // ---------------------------------------------------------------------------

  /** What `json.loads(...).get("rows")` finds in a cache file. */
  datatype RowsField =
    | Unreadable              // the file cannot be read or parsed, or is not an object
    | Rows(rows: seq<seq<real>>)
    | NotRows                 // "rows" is absent or not a list

  datatype CacheFile = CacheFile(mtime: real, content: RowsField)

  type CacheDir = map<string, CacheFile>

  function FileName(key: string): string
  {
    "bandcond_" + key + ".json"
  }

  /** `load_cache`: the cached rows when caching is on, the file exists, is at
      most `ttl` seconds old and holds a 24-element `rows` list. */
  function LoadCache(dir: CacheDir, key: string, ttl: int, now: real): (r: Option<seq<seq<real>>>)
    ensures r.Some? <==>
      ttl > 0 && FileName(key) in dir && now - dir[FileName(key)].mtime <= ttl as real &&
      dir[FileName(key)].content.Rows? && |dir[FileName(key)].content.rows| == NHOURS
    ensures r.Some? ==> r.value == dir[FileName(key)].content.rows
  {
    if ttl <= 0 then None
    else if FileName(key) !in dir then None
    else
      var f := dir[FileName(key)];
      if now - f.mtime > ttl as real then None
      else if f.content.Rows? && |f.content.rows| == NHOURS then Some(f.content.rows)
      else None
  }

  /** How a write attempt ends: the file written, nothing written, or a file
      left behind that does not parse. */
  datatype WriteOutcome = Written | NotWritten | Truncated

  /** `save_cache`: never fails; the outcome of the write is a parameter. */
  function SaveCache(dir: CacheDir, key: string, rows: seq<seq<real>>, now: real, outcome: WriteOutcome): (r: CacheDir)
    ensures forall k :: k != FileName(key) ==> (k in r <==> k in dir) && (k in dir ==> r[k] == dir[k])
  {
    match outcome
    case Written => dir[FileName(key) := CacheFile(now, Rows(rows))]
    case NotWritten => dir
    case Truncated => dir[FileName(key) := CacheFile(now, Unreadable)]
  }

  /** A saved table is loaded back unchanged while it is fresh; a torn write
      is never loaded. */
  lemma SaveThenLoad(dir: CacheDir, key: string, rows: seq<seq<real>>, saved: real, ttl: int, now: real)
    requires ttl > 0 && saved <= now && now - saved <= ttl as real
    ensures |rows| == NHOURS ==> LoadCache(SaveCache(dir, key, rows, saved, Written), key, ttl, now) == Some(rows)
    ensures LoadCache(SaveCache(dir, key, rows, saved, Truncated), key, ttl, now) == None
  {
  }

  // ---------------------------------------------------------------------------
  // `main`
  // ---------------------------------------------------------------------------

  /** The command-line values the model uses. */
  datatype Args = Args(month: int, utc: int, path: int, pow: int, mode: int, toa: Float, ssn: Float, cacheTtl: int)

  /** The header fields: power, mode name, take-off angle, path name, sunspot number. */
  datatype Header = Header(pow: int, mode: string, toa: Float, path: string, ssn: Float)

  /** A printed line: a row of clamped scores with an optional hour label, or the header. */
  datatype OutLine = Values(hour: Option<int>, cells: seq<real>) | HeaderLine(header: Header)

  /** What a run does: its exit code, the lines it prints, the cache
      directory afterwards, and whether it ran the engine. */
  datatype Run = Run(exit: int, lines: seq<OutLine>, cache: CacheDir, computed: bool)

  /** `fmt_row` before text formatting: every cell clamped. */
  function Fmt(row: seq<real>): (r: seq<real>)
    ensures |r| == |row| && forall i :: 0 <= i < |r| ==> 0.0 <= r[i] <= 1.0
  {
    seq(|row|, i requires 0 <= i < |row| => Clamp01(Finite(row[i])))
  }

  function MakeHeader(a: Args): Header
  {
    Header(a.pow, ModeName(a.mode), a.toa, PathName(a.path), a.ssn)
  }

  /** The rows a run prints: from the cache when it hits, else computed. */
  function RowsOf(a: Args, key: string, dir: CacheDir, now: real, engine: int -> seq<Prediction>, shape: Shape): (r: seq<seq<real>>)
    ensures |r| == NHOURS
  {
    var cached := LoadCache(dir, key, a.cacheTtl, now);
    if cached.Some? then cached.value else ComputeRows(engine, shape)
  }

  /** Printed line `i`: the row of hour `utc % 24`, the header, the rows of
      hours 1..23, and the row of hour 0. */
  function LineAt(a: Args, rows: seq<seq<real>>, i: int): OutLine
    requires |rows| == NHOURS && 0 <= i < NHOURS + 2
  {
    if i == 0 then Values(None, Fmt(rows[a.utc % NHOURS]))
    else if i == 1 then HeaderLine(MakeHeader(a))
    else if i <= NHOURS then Values(Some(i - 1), Fmt(rows[i - 1]))
    else Values(Some(0), Fmt(rows[0]))
  }

  /** The printed lines for a table of 24 rows. */
  function Lines(a: Args, rows: seq<seq<real>>): seq<OutLine>
    requires |rows| == NHOURS
  {
    seq(NHOURS + 2, i requires 0 <= i < NHOURS + 2 => LineAt(a, rows, i))
  }

  /** `main` after argument parsing; `keyBytes` is the canonical encoding of the
      parameters and `keyOf` the key derivation (`CacheKey` as written,
      `CacheKeyExact` corrected). The header's `int(round(ssn))` raises on a
      NaN or infinite `--ssn` after the cache step and before any print. */
  function Main(a: Args, keyBytes: seq<byte>, dir: CacheDir, now: real,
                engine: int -> seq<Prediction>, shape: Shape, outcome: WriteOutcome,
                keyOf: seq<byte> -> string): (r: Run)
    ensures r.exit == EXIT_BAD_ARGS <==> !(1 <= a.month <= 12) || !(0 <= a.utc <= 23)
    ensures r.exit == EXIT_BAD_ARGS ==> r.lines == [] && r.cache == dir && !r.computed
    ensures r.exit != EXIT_BAD_ARGS ==> (r.exit == EXIT_OK <==> a.ssn.Finite?)
    ensures r.exit != EXIT_BAD_ARGS && !a.ssn.Finite? ==> r.exit == EXIT_CRASH && r.lines == []
    ensures r.exit == EXIT_OK ==> |r.lines| == NHOURS + 2
    ensures r.exit != EXIT_BAD_ARGS ==>
      var key := keyOf(keyBytes);
      var cached := LoadCache(dir, key, a.cacheTtl, now);
      (cached.Some? ==> (!r.computed && r.cache == dir &&
        RowsOf(a, key, dir, now, engine, shape) == cached.value)) &&
      (cached.None? ==> (r.computed && r.cache == SaveCache(dir, key, ComputeRows(engine, shape), now, outcome) &&
        RowsOf(a, key, dir, now, engine, shape) == ComputeRows(engine, shape)))
  {
    if !(1 <= a.month <= 12) || !(0 <= a.utc <= 23) then Run(EXIT_BAD_ARGS, [], dir, false)
    else
      var key := keyOf(keyBytes);
      var cached := LoadCache(dir, key, a.cacheTtl, now);
      var rows := RowsOf(a, key, dir, now, engine, shape);
      var dir' := if cached.Some? then dir else SaveCache(dir, key, rows, now, outcome);
      if a.ssn.Finite? then Run(EXIT_OK, Lines(a, rows), dir', cached.None?)
      else Run(EXIT_CRASH, [], dir', cached.None?)
  }

  /** Where hour `h`'s labelled row is printed. */
  function HourLine(h: int): int
  {
    if h == 0 then NHOURS + 1 else h + 1
  }

  /** The printed lines: the requested hour's row unlabelled, the header, then
      hours 1..23 and finally hour 0, each hour labelled exactly once. */
  lemma LinesOrder(a: Args, rows: seq<seq<real>>)
    requires |rows| == NHOURS && 0 <= a.utc < NHOURS
    ensures var out := Lines(a, rows);
      |out| == NHOURS + 2 &&
      out[0] == Values(None, Fmt(rows[a.utc])) &&
      out[1] == HeaderLine(Header(a.pow, "CW", a.toa, if a.path == 1 then "LP" else "SP", a.ssn)) &&
      (forall h :: 0 <= h < NHOURS ==> out[HourLine(h)] == Values(Some(h), Fmt(rows[h]))) &&
      (forall i, h :: 0 <= i < |out| && 0 <= h < NHOURS ==>
        (out[i].Values? && out[i].hour == Some(h) <==> i == HourLine(h)))
  {
    var out := Lines(a, rows);
    forall h | 0 <= h < NHOURS ensures out[HourLine(h)] == Values(Some(h), Fmt(rows[h])) {
      assert out[HourLine(h)] == LineAt(a, rows, HourLine(h));
    }
  }

  /** A run with a valid month and utc and a finite ssn exits 0 and prints the
      26 lines of its table in hour order. */
  lemma MainOutputOrder(a: Args, keyBytes: seq<byte>, dir: CacheDir, now: real,
                        engine: int -> seq<Prediction>, shape: Shape, outcome: WriteOutcome,
                        keyOf: seq<byte> -> string)
    requires 1 <= a.month <= 12 && 0 <= a.utc <= 23 && a.ssn.Finite?
    ensures var r := Main(a, keyBytes, dir, now, engine, shape, outcome, keyOf);
      var rows := RowsOf(a, keyOf(keyBytes), dir, now, engine, shape);
      r.exit == EXIT_OK &&
      r.lines == Lines(a, rows) &&
      |r.lines| == NHOURS + 2 &&
      r.lines[0] == Values(None, Fmt(rows[a.utc])) &&
      r.lines[1] == HeaderLine(Header(a.pow, "CW", a.toa, if a.path == 1 then "LP" else "SP", a.ssn)) &&
      (forall h :: 0 <= h < NHOURS ==> r.lines[HourLine(h)] == Values(Some(h), Fmt(rows[h]))) &&
      (forall i, h :: 0 <= i < |r.lines| && 0 <= h < NHOURS ==>
        (r.lines[i].Values? && r.lines[i].hour == Some(h) <==> i == HourLine(h)))
  {
    var rows := RowsOf(a, keyOf(keyBytes), dir, now, engine, shape);
    LinesOrder(a, rows);
  }

  // ---------------------------------------------------------------------------
  // Two runs sharing a cache directory
  // ---------------------------------------------------------------------------

  /** With the byte-sum key, a run whose parameters share a key with an earlier
      run that computed and saved its table prints that earlier table, within
      the ttl, without running the engine. */
  lemma SharedKeyServesOtherRows(a1: Args, b1: seq<byte>, a2: Args, b2: seq<byte>, dir: CacheDir,
                                 t1: real, t2: real, e1: int -> seq<Prediction>, e2: int -> seq<Prediction>,
                                 shape: Shape, o2: WriteOutcome)
    requires CacheKey(b1) == CacheKey(b2)
    requires 1 <= a1.month <= 12 && 0 <= a1.utc <= 23 && 1 <= a2.month <= 12 && 0 <= a2.utc <= 23
    requires LoadCache(dir, CacheKey(b1), a1.cacheTtl, t1).None?
    requires a2.cacheTtl > 0 && t1 <= t2 && t2 - t1 <= a2.cacheTtl as real
    ensures var r1 := Main(a1, b1, dir, t1, e1, shape, Written, CacheKey);
      var r2 := Main(a2, b2, r1.cache, t2, e2, shape, o2, CacheKey);
      r1.computed && !r2.computed && r2.cache == r1.cache &&
      RowsOf(a2, CacheKey(b2), r1.cache, t2, e2, shape) == ComputeRows(e1, shape)
  {
    var r1 := Main(a1, b1, dir, t1, e1, shape, Written, CacheKey);
    SaveThenLoad(dir, CacheKey(b1), ComputeRows(e1, shape), t1, a2.cacheTtl, t2);
    assert r1.cache == SaveCache(dir, CacheKey(b1), ComputeRows(e1, shape), t1, Written);
  }

  /** The program as written: a request for month 3 of 2025 made after a request
      for month 5 of 2023 (all else equal) prints the 2023 table. */
  lemma MonthCollisionServesStaleTable(a1: Args, a2: Args, dir: CacheDir, t1: real, t2: real,
                                       e1: int -> seq<Prediction>, e2: int -> seq<Prediction>,
                                       shape: Shape, o2: WriteOutcome)
    requires 1 <= a1.month <= 12 && 0 <= a1.utc <= 23 && 1 <= a2.month <= 12 && 0 <= a2.utc <= 23
    requires LoadCache(dir, CacheKey(MAY_2023_BYTES), a1.cacheTtl, t1).None?
    requires a2.cacheTtl > 0 && t1 <= t2 && t2 - t1 <= a2.cacheTtl as real
    ensures MAY_2023_BYTES != MARCH_2025_BYTES
    ensures var r1 := Main(a1, MAY_2023_BYTES, dir, t1, e1, shape, Written, CacheKey);
      var r2 := Main(a2, MARCH_2025_BYTES, r1.cache, t2, e2, shape, o2, CacheKey);
      !r2.computed && RowsOf(a2, CacheKey(MARCH_2025_BYTES), r1.cache, t2, e2, shape) == ComputeRows(e1, shape)
  {
    CacheKeyCollision();
    SharedKeyServesOtherRows(a1, MAY_2023_BYTES, a2, MARCH_2025_BYTES, dir, t1, t2, e1, e2, shape, o2);
  }

  /** Distinct keys name distinct cache files. */
  lemma FileNameInjective(k1: string, k2: string)
    requires FileName(k1) == FileName(k2)
    ensures k1 == k2
  {
    var n := |"bandcond_"|;
    assert |k1| == |k2|;
    assert k1 == FileName(k1)[n..n + |k1|];
    assert k2 == FileName(k2)[n..n + |k2|];
  }

  /** With the corrected key, a run never changes what a later run with
      different parameters finds in the cache. */
  lemma ExactKeySeparatesRuns(a1: Args, b1: seq<byte>, b2: seq<byte>, dir: CacheDir, t1: real,
                              e1: int -> seq<Prediction>, shape: Shape, o1: WriteOutcome, ttl: int, t2: real)
    requires b1 != b2
    ensures var r1 := Main(a1, b1, dir, t1, e1, shape, o1, CacheKeyExact);
      LoadCache(r1.cache, CacheKeyExact(b2), ttl, t2) == LoadCache(dir, CacheKeyExact(b2), ttl, t2)
  {
    if CacheKeyExact(b1) == CacheKeyExact(b2) {
      CacheKeyExactInjective(b1, b2);
    }
    if FileName(CacheKeyExact(b1)) == FileName(CacheKeyExact(b2)) {
      FileNameInjective(CacheKeyExact(b1), CacheKeyExact(b2));
    }
  }
}
