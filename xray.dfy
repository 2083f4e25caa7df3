/** The X-ray producer: GOES flux records for two energy bands, paired per
    timestamp, grouped into UTC-aligned 10-minute bins with the per-band
    maximum, stamped at minute 9 of each bin, cut back by a safety lag and
    trimmed to the newest 150 bins.

    Times are integer seconds since 1970-01-01T00:00:00Z. */
module XRay {
  import opened Common

  const SHORT_BAND: string := "0.05-0.4nm"
  const LONG_BAND: string := "0.1-0.8nm"
  const CSI_LAG_MINUTES: int := 21
  const BIN_SECONDS: int := 600
  /** Bins are stamped 9 minutes after their start. */
  const STAMP_OFFSET: int := 540
  const KEEP: nat := 150
  const REQUIRED: set<string> := {"time_tag", "energy", "flux"}

  /** One record of the upstream JSON list; a null or missing flux is `None`. */
  datatype Record = Record(time: int, energy: string, flux: Option<real>)

  /** The upstream table: the column names present and the records. */
  datatype Feed = Feed(columns: set<string>, records: seq<Record>)

  /** A row of the pivoted table: one timestamp with both fluxes. */
  datatype Sample = Sample(t: int, short: real, long: real)

  /** An output bin: its minute-9 stamp and the per-band maxima. */
  datatype XrayBin = XrayBin(stamp: int, short: real, long: real)

  datatype XrayError =
    | MissingKeys       // a required column is absent
    | DuplicateEntries  // the pivot finds two records for one (time, band)
    | MissingBand       // one of the two band columns never appears

  // ---------------------------------------------------------------------------
  // Band filter and pivot
  // ---------------------------------------------------------------------------

  predicate IsBand(energy: string)
  {
    energy == SHORT_BAND || energy == LONG_BAND
  }

  /** The records of the two bands, in order. */
  function BandRecords(recs: seq<Record>): (r: seq<Record>)
    ensures forall x :: x in r <==> x in recs && IsBand(x.energy)
  {
    if recs == [] then []
    else (if IsBand(recs[0].energy) then [recs[0]] else []) + BandRecords(recs[1..])
  }

  /** Two records share a timestamp and a band: the pivot refuses such input. */
  predicate HasDuplicate(recs: seq<Record>)
  {
    exists i, j :: 0 <= i < j < |recs| && recs[i].time == recs[j].time && recs[i].energy == recs[j].energy
  }

  predicate HasBand(recs: seq<Record>, band: string)
  {
    exists i :: 0 <= i < |recs| && recs[i].energy == band
  }

  /** The pivot cell for `(t, band)`: the flux of the first matching record,
      `None` (NaN) when there is none. */
  function Cell(recs: seq<Record>, t: int, band: string): Option<real>
  {
    if recs == [] then None
    else if recs[0].time == t && recs[0].energy == band then recs[0].flux
    else Cell(recs[1..], t, band)
  }

  /** Without duplicates, the cell is the flux of the one matching record. */
  lemma {:induction false} CellIsRecord(recs: seq<Record>, t: int, band: string, v: real)
    requires !HasDuplicate(recs)
    ensures Cell(recs, t, band) == Some(v) <==> Record(t, band, Some(v)) in recs
  {
    if recs != [] {
      var tail := recs[1..];
      assert forall i, j :: 0 <= i < j < |tail| ==> tail[i] == recs[i + 1] && tail[j] == recs[j + 1];
      CellIsRecord(tail, t, band, v);
      assert recs == [recs[0]] + tail;
      if recs[0].time == t && recs[0].energy == band {
        assert forall j :: 0 <= j < |tail| ==> tail[j].time != t || tail[j].energy != band;
      }
    }
  }

  /** The pivot followed by `dropna`: one sample per short-band record with a
      flux whose long-band cell at the same time has a flux. */
  function PivotFrom(todo: seq<Record>, all: seq<Record>): seq<Sample>
  {
    if todo == [] then []
    else
      var x := todo[0];
      var partner := Cell(all, x.time, LONG_BAND);
      (if x.energy == SHORT_BAND && x.flux.Some? && partner.Some?
       then [Sample(x.time, x.flux.value, partner.value)] else [])
      + PivotFrom(todo[1..], all)
  }

  function Pivot(band: seq<Record>): seq<Sample>
  {
    PivotFrom(band, band)
  }

  lemma {:induction false} PivotFromMembers(todo: seq<Record>, all: seq<Record>, p: Sample)
    ensures p in PivotFrom(todo, all) <==>
      Record(p.t, SHORT_BAND, Some(p.short)) in todo && Cell(all, p.t, LONG_BAND) == Some(p.long)
  {
    if todo != [] {
      PivotFromMembers(todo[1..], all, p);
      assert todo == [todo[0]] + todo[1..];
    }
  }

  /** A timestamp is in the pivot iff both bands have a record with a flux there. */
  lemma PivotMembers(band: seq<Record>, p: Sample)
    requires !HasDuplicate(band)
    ensures p in Pivot(band) <==>
      Record(p.t, SHORT_BAND, Some(p.short)) in band && Record(p.t, LONG_BAND, Some(p.long)) in band
  {
    PivotFromMembers(band, band, p);
    CellIsRecord(band, p.t, LONG_BAND, p.long);
  }

  // ---------------------------------------------------------------------------
  // 10-minute bins and per-bin maxima
  // ---------------------------------------------------------------------------

  /** `floor("10min")`: the start of the UTC-aligned bin holding `t`. */
  function Floor10(t: int): (r: int)
    ensures r <= t < r + BIN_SECONDS
    ensures r % BIN_SECONDS == 0
  {
    t - t % BIN_SECONDS
  }

  predicate Increasing(s: seq<int>)
  {
    forall i, j :: 0 <= i < j < |s| ==> s[i] < s[j]
  }

  /** Add a bin start to a sorted list of distinct starts. */
  lemma IncreasingTail(s: seq<int>)
    requires Increasing(s) && s != []
    ensures Increasing(s[1..])
    ensures forall y :: y in s[1..] ==> s[0] < y
  {
    forall i, j | 0 <= i < j < |s| - 1 ensures s[1..][i] < s[1..][j] {
      assert s[1..][i] == s[i + 1] && s[1..][j] == s[j + 1];
    }
  }

  lemma IncreasingCons(h: int, t: seq<int>)
    requires Increasing(t) && forall y :: y in t ==> h < y
    ensures Increasing([h] + t)
  {
    forall i, j | 0 <= i < j < |t| + 1 ensures ([h] + t)[i] < ([h] + t)[j] {
      assert ([h] + t)[j] == t[j - 1];
      if i > 0 {
        assert ([h] + t)[i] == t[i - 1];
      } else {
        assert t[j - 1] in t;
      }
    }
  }

  function AddStart(b: int, s: seq<int>): (r: seq<int>)
    requires Increasing(s)
    ensures Increasing(r)
    ensures forall y :: y in r <==> y == b || y in s
  {
    if s == [] then [b]
    else if b < s[0] then
      IncreasingTail(s);
      IncreasingCons(b, s);
      [b] + s
    else if b == s[0] then s
    else
      IncreasingTail(s);
      var tail := AddStart(b, s[1..]);
      IncreasingCons(s[0], tail);
      assert s == [s[0]] + s[1..];
      [s[0]] + tail
  }

  /** Some sample falls in the bin starting at `b`. */
  predicate HasBinStart(rows: seq<Sample>, b: int)
  {
    exists i :: 0 <= i < |rows| && Floor10(rows[i].t) == b
  }

  /** The `groupby("bin", sort=True)` keys: the distinct bin starts, ascending. */
  function BinStarts(rows: seq<Sample>): (r: seq<int>)
    ensures Increasing(r)
    ensures forall b :: b in r <==> HasBinStart(rows, b)
  {
    if rows == [] then []
    else
      var rest := BinStarts(rows[1..]);
      var r := AddStart(Floor10(rows[0].t), rest);
      assert forall b :: HasBinStart(rows, b) <==> b == Floor10(rows[0].t) || HasBinStart(rows[1..], b)
      by {
        forall b | HasBinStart(rows, b)
          ensures b == Floor10(rows[0].t) || HasBinStart(rows[1..], b)
        {
          var i :| 0 <= i < |rows| && Floor10(rows[i].t) == b;
          if i > 0 { assert rows[1..][i - 1] == rows[i]; }
        }
        forall b | HasBinStart(rows[1..], b)
          ensures HasBinStart(rows, b)
        {
          var i :| 0 <= i < |rows[1..]| && Floor10(rows[1..][i].t) == b;
          assert rows[i + 1] == rows[1..][i];
        }
      }
      r
  }

  /** The samples of bin `b`, in order. */
  function InBin(rows: seq<Sample>, b: int): (r: seq<Sample>)
    ensures forall p :: p in r <==> p in rows && Floor10(p.t) == b
  {
    if rows == [] then []
    else (if Floor10(rows[0].t) == b then [rows[0]] else []) + InBin(rows[1..], b)
  }

  /** The maximum of a non-empty list. */
  function MaxOf(xs: seq<real>): (m: real)
    requires xs != []
    ensures forall i :: 0 <= i < |xs| ==> xs[i] <= m
    ensures exists i :: 0 <= i < |xs| && xs[i] == m
  {
    if |xs| == 1 then xs[0]
    else
      var rest := MaxOf(xs[1..]);
      assert forall i :: 1 <= i < |xs| ==> xs[i] == xs[1..][i - 1];
      if xs[0] >= rest then xs[0] else rest
  }

  function Shorts(s: seq<Sample>): seq<real>
  {
    seq(|s|, i requires 0 <= i < |s| => s[i].short)
  }

  function Longs(s: seq<Sample>): seq<real>
  {
    seq(|s|, i requires 0 <= i < |s| => s[i].long)
  }

  /** One `groupby(...).max()` row, re-stamped at minute 9. */
  function BinOf(rows: seq<Sample>, b: int): XrayBin
    requires InBin(rows, b) != []
  {
    var members := InBin(rows, b);
    XrayBin(b + STAMP_OFFSET, MaxOf(Shorts(members)), MaxOf(Longs(members)))
  }

  /** The binned table in bin order. */
  function Binned(rows: seq<Sample>): seq<XrayBin>
  {
    var starts := BinStarts(rows);
    seq(|starts|, i requires 0 <= i < |starts| =>
      assert starts[i] in starts;
      var k :| 0 <= k < |rows| && Floor10(rows[k].t) == starts[i];
      assert rows[k] in InBin(rows, starts[i]);
      BinOf(rows, starts[i]))
  }

  predicate StampsIncreasing(s: seq<XrayBin>)
  {
    forall i, j :: 0 <= i < j < |s| ==> s[i].stamp < s[j].stamp
  }

  /** One bin holds the band maxima of its samples, stamped in minute 9. */
  lemma BinOfMaxima(rows: seq<Sample>, b: int)
    requires b % BIN_SECONDS == 0 && InBin(rows, b) != []
    ensures var o := BinOf(rows, b);
      o.stamp == b + STAMP_OFFSET && o.stamp % BIN_SECONDS == STAMP_OFFSET &&
      (forall p :: p in rows && Floor10(p.t) == b ==> p.short <= o.short && p.long <= o.long) &&
      (exists p :: p in rows && Floor10(p.t) == b && p.short == o.short) &&
      (exists p :: p in rows && Floor10(p.t) == b && p.long == o.long)
  {
    var o := BinOf(rows, b);
    var members := InBin(rows, b);
    StampInMinuteNine(b);
    forall p | p in rows && Floor10(p.t) == b
      ensures p.short <= o.short && p.long <= o.long
    {
      assert p in members;
      var m :| 0 <= m < |members| && members[m] == p;
      assert Shorts(members)[m] == p.short;
      assert Longs(members)[m] == p.long;
    }
    var ms :| 0 <= ms < |Shorts(members)| && Shorts(members)[ms] == o.short;
    assert members[ms] in members;
    var ml :| 0 <= ml < |Longs(members)| && Longs(members)[ml] == o.long;
    assert members[ml] in members;
  }

  /** Output bin `i` is the bin of the `i`-th start. */
  lemma BinnedAt(rows: seq<Sample>, i: int)
    requires 0 <= i < |Binned(rows)|
    ensures var b := BinStarts(rows)[i];
      b % BIN_SECONDS == 0 && InBin(rows, b) != [] && Binned(rows)[i] == BinOf(rows, b)
  {
    var b := BinStarts(rows)[i];
    assert b in BinStarts(rows);
    var k :| 0 <= k < |rows| && Floor10(rows[k].t) == b;
    assert rows[k] in InBin(rows, b);
  }

  /** Stamps rise strictly and end in minute 9. */
  lemma BinnedStamps(rows: seq<Sample>)
    ensures StampsIncreasing(Binned(rows))
    ensures forall o :: o in Binned(rows) ==> o.stamp % BIN_SECONDS == STAMP_OFFSET
  {
    var out := Binned(rows);
    forall o | o in out ensures o.stamp % BIN_SECONDS == STAMP_OFFSET {
      var i :| 0 <= i < |out| && out[i] == o;
      BinnedAt(rows, i);
      BinOfMaxima(rows, BinStarts(rows)[i]);
    }
  }

  /** Each output bin holds the band maxima of the samples whose bin start is
      9 minutes before its stamp. */
  lemma BinnedMaxima(rows: seq<Sample>, o: XrayBin)
    requires o in Binned(rows)
    ensures forall p :: p in rows && Floor10(p.t) + STAMP_OFFSET == o.stamp ==> p.short <= o.short && p.long <= o.long
    ensures exists p :: p in rows && Floor10(p.t) + STAMP_OFFSET == o.stamp && p.short == o.short
    ensures exists p :: p in rows && Floor10(p.t) + STAMP_OFFSET == o.stamp && p.long == o.long
  {
    var out := Binned(rows);
    var i :| 0 <= i < |out| && out[i] == o;
    BinnedAt(rows, i);
    BinOfMaxima(rows, BinStarts(rows)[i]);
  }

  /** Every sample's bin is published. */
  lemma BinnedCovers(rows: seq<Sample>, p: Sample)
    requires p in rows
    ensures exists o :: o in Binned(rows) && o.stamp == Floor10(p.t) + STAMP_OFFSET
  {
    var out := Binned(rows);
    var starts := BinStarts(rows);
    var k :| 0 <= k < |rows| && rows[k] == p;
    var b := Floor10(p.t);
    assert HasBinStart(rows, b);
    var i :| 0 <= i < |starts| && starts[i] == b;
    BinnedAt(rows, i);
    assert out[i].stamp == b + STAMP_OFFSET;
  }

  lemma StampInMinuteNine(b: int)
    requires b % BIN_SECONDS == 0
    ensures (b + STAMP_OFFSET) % BIN_SECONDS == STAMP_OFFSET
  {
    var k := b / BIN_SECONDS;
    assert b == k * BIN_SECONDS;
    assert b + STAMP_OFFSET == k * BIN_SECONDS + STAMP_OFFSET;
  }

  // ---------------------------------------------------------------------------
  // Lag cut, last 150, and the whole pipeline
  // ---------------------------------------------------------------------------

  /** The newest stamp allowed: the minute-9 stamp of the bin holding `now - 21 min`. */
  function LastAllowed(now: int): int
  {
    Floor10(now - CSI_LAG_MINUTES * 60) + STAMP_OFFSET
  }

  lemma StampsTail(s: seq<XrayBin>)
    requires StampsIncreasing(s) && s != []
    ensures StampsIncreasing(s[1..])
    ensures forall o :: o in s[1..] ==> s[0].stamp < o.stamp
  {
    forall i, j | 0 <= i < j < |s| - 1 ensures s[1..][i].stamp < s[1..][j].stamp {
      assert s[1..][i] == s[i + 1] && s[1..][j] == s[j + 1];
    }
  }

  lemma StampsCons(h: XrayBin, t: seq<XrayBin>)
    requires StampsIncreasing(t) && forall o :: o in t ==> h.stamp < o.stamp
    ensures StampsIncreasing([h] + t)
  {
    forall i, j | 0 <= i < j < |t| + 1 ensures ([h] + t)[i].stamp < ([h] + t)[j].stamp {
      assert ([h] + t)[j] == t[j - 1];
      if i > 0 {
        assert ([h] + t)[i] == t[i - 1];
      } else {
        assert t[j - 1] in t;
      }
    }
  }

  /** The bins whose stamp is at most `limit`, in order. */
  function LagCut(bins: seq<XrayBin>, limit: int): (r: seq<XrayBin>)
    ensures forall o :: o in r <==> o in bins && o.stamp <= limit
    ensures StampsIncreasing(bins) ==> StampsIncreasing(r)
  {
    if bins == [] then []
    else
      var rest := LagCut(bins[1..], limit);
      assert bins == [bins[0]] + bins[1..];
      if StampsIncreasing(bins) then
        StampsTail(bins);
        if bins[0].stamp <= limit then
          StampsCons(bins[0], rest);
          [bins[0]] + rest
        else rest
      else (if bins[0].stamp <= limit then [bins[0]] else []) + rest
  }

  /** `iloc[-150:]` when there are more than 150 bins. */
  function KeepLast(s: seq<XrayBin>): (r: seq<XrayBin>)
    ensures |r| == (if |s| < KEEP then |s| else KEEP) && r == s[|s| - |r|..]
    ensures forall o :: o in r ==> o in s
  {
    if |s| > KEEP then s[|s| - KEEP..] else s
  }

  lemma SuffixIncreasing(s: seq<XrayBin>, k: nat)
    requires StampsIncreasing(s) && k <= |s|
    ensures StampsIncreasing(s[k..])
  {
    forall i, j | 0 <= i < j < |s| - k ensures s[k..][i].stamp < s[k..][j].stamp {
      assert s[k..][i] == s[k + i] && s[k..][j] == s[k + j];
    }
  }

  lemma StampsOrder(s: seq<XrayBin>, i: nat, j: nat)
    requires StampsIncreasing(s) && i < |s| && j < |s| && s[i].stamp <= s[j].stamp
    ensures i <= j
  {
  }

  /** A bin no older than the oldest kept one survives the trim. */
  lemma KeepLastKeeps(s: seq<XrayBin>, j: nat)
    requires StampsIncreasing(s) && j < |s|
    requires |KeepLast(s)| < KEEP || KeepLast(s)[0].stamp <= s[j].stamp
    ensures s[j] in KeepLast(s)
  {
    var out := KeepLast(s);
    var first := |s| - |out|;
    if first > 0 {
      assert out[0] == s[first];
      StampsOrder(s, first, j);
    }
    assert out[j - first] == s[j];
  }

  /** The lag-cut bins of the pivot, before the last-150 trim. */
  function Allowed(band: seq<Record>, now: int): seq<XrayBin>
  {
    LagCut(Binned(Pivot(band)), LastAllowed(now))
  }

  /** `main` without the fetch and the write. */
  function Xray(feed: Feed, now: int): (r: Result<seq<XrayBin>, XrayError>)
    ensures r == Failure(MissingKeys) <==> !(REQUIRED <= feed.columns)
    ensures r == Failure(DuplicateEntries) <==>
      REQUIRED <= feed.columns && HasDuplicate(BandRecords(feed.records))
    ensures r.Success? <==>
      REQUIRED <= feed.columns && !HasDuplicate(BandRecords(feed.records)) &&
      HasBand(BandRecords(feed.records), SHORT_BAND) && HasBand(BandRecords(feed.records), LONG_BAND)
    ensures r.Success? ==>
      var allowed := Allowed(BandRecords(feed.records), now);
      |r.value| == (if |allowed| < KEEP then |allowed| else KEEP) &&
      r.value == allowed[|allowed| - |r.value|..]
  {
    if !(REQUIRED <= feed.columns) then Failure(MissingKeys)
    else
      var band := BandRecords(feed.records);
      if HasDuplicate(band) then Failure(DuplicateEntries)
      else if !HasBand(band, SHORT_BAND) || !HasBand(band, LONG_BAND) then Failure(MissingBand)
      else Success(KeepLast(Allowed(band, now)))
  }

  /** The published bins: at most 150, strictly rising stamps in minute 9, none
      newer than the lag allows. */
  lemma XrayStamps(feed: Feed, now: int)
    requires Xray(feed, now).Success?
    ensures var out := Xray(feed, now).value;
      |out| <= KEEP && StampsIncreasing(out) &&
      forall o :: o in out ==> o.stamp % BIN_SECONDS == STAMP_OFFSET && o.stamp <= LastAllowed(now)
  {
    var band := BandRecords(feed.records);
    var bins := Binned(Pivot(band));
    var allowed := LagCut(bins, LastAllowed(now));
    var out := KeepLast(allowed);
    assert out == Xray(feed, now).value;
    BinnedStamps(Pivot(band));
    SuffixIncreasing(allowed, |allowed| - |out|);
  }

  /** Each published bin holds the maxima of its bin's pivot samples. */
  lemma XrayMaxima(feed: Feed, now: int, o: XrayBin)
    requires Xray(feed, now).Success? && o in Xray(feed, now).value
    ensures var rows := Pivot(BandRecords(feed.records));
      (forall p :: p in rows && Floor10(p.t) + STAMP_OFFSET == o.stamp ==> p.short <= o.short && p.long <= o.long) &&
      (exists p :: p in rows && Floor10(p.t) + STAMP_OFFSET == o.stamp && p.short == o.short) &&
      (exists p :: p in rows && Floor10(p.t) + STAMP_OFFSET == o.stamp && p.long == o.long)
  {
    var band := BandRecords(feed.records);
    var bins := Binned(Pivot(band));
    var allowed := LagCut(bins, LastAllowed(now));
    assert Xray(feed, now).value == KeepLast(allowed);
    assert o in allowed;
    assert o in bins;
    BinnedMaxima(Pivot(band), o);
  }

  /** A pivot sample whose bin passes the lag cut is published, unless 150
      newer bins crowd it out. */
  lemma XrayComplete(feed: Feed, now: int, p: Sample)
    requires Xray(feed, now).Success? && p in Pivot(BandRecords(feed.records))
    requires Floor10(p.t) + STAMP_OFFSET <= LastAllowed(now)
    requires var out := Xray(feed, now).value;
      |out| < KEEP || out[0].stamp <= Floor10(p.t) + STAMP_OFFSET
    ensures exists o :: o in Xray(feed, now).value && o.stamp == Floor10(p.t) + STAMP_OFFSET
  {
    var band := BandRecords(feed.records);
    var rows := Pivot(band);
    var bins := Binned(rows);
    var allowed := LagCut(bins, LastAllowed(now));
    var out := KeepLast(allowed);
    assert out == Xray(feed, now).value;
    BinnedStamps(rows);
    BinnedCovers(rows, p);
    var o :| o in bins && o.stamp == Floor10(p.t) + STAMP_OFFSET;
    assert o in allowed;
    var j :| 0 <= j < |allowed| && allowed[j] == o;
    KeepLastKeeps(allowed, j);
  }
}
