# Space-weather feed normalisation, modelled in Dafny

open-hamclock-backend publishes small text feeds that HamClock clients read.
Five of its producers share one job: take a raw upstream table, keep the
valid rows, put them on a fixed time grid and publish a bounded,
well-ordered series. This project models that normalisation logic. Each
producer is one module.

- `KpStream` (`kindex.dfy`) models `scripts/kindex_simple.py`, which builds
  the 72-value planetary Kp stream. It has three parts:
  - 56 historic 3-hour bins, taken from the daily geomagnetic-data rows,
    cut off at a lagged 3-hour boundary and left-padded to 56;
  - 16 forecast bins, sliced from the 3-day forecast table at a checked
    offset;
  - forward-only persistence fill, which replaces invalid values.
- `SolarWind` (`swind.dfy`) models `scripts/swind_simple.py`:
  - the plasma table's header-driven column lookup;
  - the range filter;
  - the stable sort and the de-duplication by epoch;
  - the lag cut and the 1440-sample window.
- `XRay` (`xray.dfy`) models `scripts/xray_simple.py`:
  - the two-band filter and the pivot, which keeps only timestamps that have
    both bands;
  - the 10-minute floor and the per-bin maxima;
  - the minute-9 re-stamp, the lag cut against `now` and the last 150 bins.
- `Drap` (`drap.dfy`) models `drap_reader.cpp`:
  - the D-region absorption accumulator, with C truncating division;
  - the range check on the bin index;
  - the in-place running maximum over 440 bins, kept in a `DrapCache` class
    over two arrays;
  - the line, accepted and populated counters.
- `BandConditions` (`voacap.dfy`) models `scripts/voacap_bandconditions.py`:
  - the argument guards;
  - the score gating;
  - padding each hour row to 9 bands;
  - the cache key and the cache acceptance rule;
  - the order of the printed lines.
- `Common` (`common.dfy`) holds the shared `Option`, `Result` and `Float` types.
  `Float` is a finite real, NaN or a signed infinity.

The wall clock is a `now` parameter everywhere. Upstream payloads arrive
already parsed:
- Kp: daily rows, and forecast lines as `Option` rows.
- Solar wind: a small JSON value type, plus the time and number converters as
  parameters.
- X-ray: records with a column set.
- DRAP: `Line` values, which are either garbled or a scanned record.
- Band conditions: the prediction engine is a function from hour to
  predictions, and the score's sigmoid is an abstract `Shape`.

## Model

| member | source | states |
|---|---|---|
| KpStream.LastGood | scripts/kindex_simple.py:46-62 | the value carried forward is always a valid (finite, non-negative) value |
| KpStream.Sanitized | scripts/kindex_simple.py:46-62 | the filled series has exactly one value per input value |
| KpStream.SanitizeSeries | scripts/kindex_simple.py:46-62 | the loop with its `last` variable produces the same length as its input and equals the forward-fill specification |
| KpStream.LastGoodIsMostRecent | scripts/kindex_simple.py:50-57 | nothing is carried iff no earlier value was valid; otherwise the carried value is the latest valid one and every later one is invalid |
| KpStream.SanitizedAt | scripts/kindex_simple.py:50-60 | output i depends only on value i and the valid values before it |
| KpStream.SanitizedKeepsGoodFillsBad | scripts/kindex_simple.py:50-60 | a valid value is kept; an invalid one becomes the fallback when no earlier value is valid, and otherwise the most recent earlier valid value |
| KpStream.SanitizedAllGood | scripts/kindex_simple.py:56-57 | with a valid fallback, no output value is NaN, infinite or negative |
| KpStream.SanitizedKeepsAllGood | scripts/kindex_simple.py:50-52 | every valid input position is emitted unchanged |
| KpStream.SanitizedPrefix | scripts/kindex_simple.py:46-62 | filling is causal: filling a prefix gives the prefix of the filled series |
| KpStream.LastGoodOfSanitized | scripts/kindex_simple.py:50-60 | after filling, the latest valid value before any position is the same as before filling, or the fallback |
| KpStream.SanitizeIdempotent | scripts/kindex_simple.py:46-62 | filling twice with the same fallback changes nothing |
| KpStream.FloorTo3h | scripts/kindex_simple.py:40-43 | the result is the 3-hour boundary at or below the instant: same day, an hour that is a multiple of 3 and no later, with minutes, seconds and microseconds zero |
| KpStream.Expanded | scripts/kindex_simple.py:87-92 | each daily row yields exactly 8 bins |
| KpStream.ExpandDailyRows | scripts/kindex_simple.py:87-92 | the nested append loop builds exactly the expansion, 8 bins per row |
| KpStream.ExpandedAt | scripts/kindex_simple.py:88-92 | bin k of day d is stamped at that day's midnight plus 3k hours and carries that day's k-th value |
| KpStream.ExpandedPairOrder | scripts/kindex_simple.py:88-92 | with days in increasing order, an earlier (day, bin) pair has an earlier stamp |
| KpStream.ExpandedIncreasing | scripts/kindex_simple.py:87-95 | days in increasing order expand to strictly increasing bin times, so the later sort by time keeps the order |
| KpStream.KpValues | scripts/kindex_simple.py:95 | the value column lists each bin's value in order |
| KpStream.WithKp | scripts/kindex_simple.py:95 | writing back a value column keeps every time and replaces every value |
| KpStream.LoadDgdSeries | scripts/kindex_simple.py:73-95 | fails iff there are no DGD rows, with that error; otherwise 8 bins per row with times unchanged, every value valid, and valid inputs kept |
| KpStream.MatchesAppend | scripts/kindex_simple.py:117-124 | scanning lines is compositional over concatenation |
| KpStream.CollectForecastRows | scripts/kindex_simple.py:117-124 | the line loop stops at 8 matched rows and returns the first matched rows of the table section |
| KpStream.Seq24 | scripts/kindex_simple.py:129-133 | the 24-bin sequence is day 1's 8 bins, then day 2's, then day 3's |
| KpStream.ForecastSlice | scripts/kindex_simple.py:137 | the slice is 16 consecutive bins of the 24 starting at the offset |
| KpStream.Forecast16 | scripts/kindex_simple.py:126-139 | succeeds iff there are exactly 8 rows and the offset is in [0, 8]; a wrong row count or offset is the matching error, never clamped; on success 16 valid values, with each valid slice value kept |
| KpStream.LoadForecast16 | scripts/kindex_simple.py:107-139 | a missing forecast header is an error; otherwise the result is the 16-bin forecast of the collected rows |
| KpStream.UpTo | scripts/kindex_simple.py:149-151 | every kept bin is an input bin at or before the history end, and the kept history is never longer than the series |
| KpStream.UpToComplete | scripts/kindex_simple.py:151 | every bin at or before the history end is kept |
| KpStream.UpToPrefix | scripts/kindex_simple.py:149-151 | on the time-sorted series the kept history is its oldest bins, in order, and every later bin is past the history end |
| KpStream.UpToEmpty | scripts/kindex_simple.py:151-153 | the kept history is empty iff every bin is after the history end |
| KpStream.Hist56 | scripts/kindex_simple.py:155-158 | exactly 56 values: the newest history values at the end, and the oldest value repeated in front when history is short |
| KpStream.Hist56Good | scripts/kindex_simple.py:155-158 | padding valid history gives only valid values |
| KpStream.BuildKp72 | scripts/kindex_simple.py:142-165 | succeeds iff some bin is at or before floor_to_3h(now) minus the lag and the forecast has 16 values; no history is an error; on success 72 values whose last 16 are the forecast wherever it was valid; with valid history, the first 56 are the padded history and all 72 are valid |
| KpStream.BuildKp72Good | scripts/kindex_simple.py:155-160 | the final fill leaves valid padded history untouched and leaves no invalid value |
| KpStream.BuildKpStream | scripts/kindex_simple.py:73-165 | the producer is the DGD series, then the forecast, then the assembly, with the first failure reported; it succeeds iff there are DGD rows, a forecast header, 8 table rows, an offset in [0, 8] and some bin at or before the lagged 3-hour boundary, and fails with no-history when only that last condition fails; a published stream has 72 valid values, its first 56 are the padded history, and its forecast part is the table slice at the offset wherever the table value was valid |
| KpStream.Filled | scripts/kindex_simple.py:56-59 | definition of the value emitted for one input; its properties are stated by KpStream.SanitizedAt and KpStream.SanitizedKeepsGoodFillsBad |
| KpStream.DgdSeries | scripts/kindex_simple.py:87-95 | definition of the expanded and filled Kp series; its properties are stated by KpStream.LoadDgdSeries and KpStream.ExpandedIncreasing |
| KpStream.Matches | scripts/kindex_simple.py:117-122 | definition of the matching forecast rows; its properties are stated by KpStream.MatchesAppend and KpStream.CollectForecastRows |
| KpStream.TableRows | scripts/kindex_simple.py:117-124 | definition of the first eight matching rows; its properties are stated by KpStream.CollectForecastRows and KpStream.LoadForecast16 |
| KpStream.HistEnd | scripts/kindex_simple.py:149-150 | definition of `hist_end`; its properties are stated by KpStream.FloorTo3h, KpStream.UpToEmpty and KpStream.BuildKpStream |
| SolarWind.TrimLeft | scripts/swind_simple.py:73 | strips a prefix made only of whitespace, so the result does not start with whitespace |
| SolarWind.TrimRight | scripts/swind_simple.py:73 | strips a suffix made only of whitespace, so the result does not end with whitespace |
| SolarWind.IndexMapIsLastMatch | scripts/swind_simple.py:70-73 | a name is in the column map iff some string header cell normalises to it, and it maps to the last such column |
| SolarWind.IndexMapSnoc | scripts/swind_simple.py:71-73 | each header cell updates the map by at most its own entry |
| SolarWind.ColumnIndex | scripts/swind_simple.py:70-73 | the loop builds the column map, and every entry names its column |
| SolarWind.Kept | scripts/swind_simple.py:79-98 | every kept sample is within the density, speed and time bounds |
| SolarWind.KeptMembers | scripts/swind_simple.py:79-98 | a sample is kept iff it is within bounds and some row converts to it; rows that are not lists or fail to convert contribute nothing |
| SolarWind.Insert | scripts/swind_simple.py:103 | insertion adds exactly one element |
| SolarWind.SortByEpoch | scripts/swind_simple.py:103 | sorting keeps the length |
| SolarWind.InsertPermutes | scripts/swind_simple.py:103 | insertion adds exactly that sample to the multiset |
| SolarWind.SortByEpochPermutes | scripts/swind_simple.py:103 | the sort is a permutation of its input |
| SolarWind.InsertSorted | scripts/swind_simple.py:103 | inserting into a list sorted by epoch keeps it sorted |
| SolarWind.SortByEpochSorted | scripts/swind_simple.py:103 | the sort's output is ordered by epoch |
| SolarWind.SortByEpochStable | scripts/swind_simple.py:103 | the sort is stable: for every epoch, the samples with that epoch keep their input order |
| SolarWind.InsertStable | scripts/swind_simple.py:103 | inserting places the new sample after every existing sample of its epoch |
| SolarWind.FirstOfEpoch | scripts/swind_simple.py:103-113 | a sample with no earlier sample of its epoch heads that epoch's group |
| SolarWind.DedupIncreasing | scripts/swind_simple.py:105-113 | the de-duplicated output has strictly increasing epochs, all above the last epoch seen |
| SolarWind.DedupKeepsFirst | scripts/swind_simple.py:105-113 | every output sample is the first sample of its epoch in the input |
| SolarWind.DedupCovers | scripts/swind_simple.py:105-113 | every epoch of sorted input newer than the last one seen appears in the output |
| SolarWind.DedupByEpoch | scripts/swind_simple.py:105-113 | the loop that tracks `last_t` computes the de-duplication, and its output is strictly increasing |
| SolarWind.ParsedProperties | scripts/swind_simple.py:62-113 | a successful parse is non-empty, strictly increasing and within bounds; it contains every surviving epoch once, and for each epoch the first sample in row order |
| SolarWind.FilterRows | scripts/swind_simple.py:79-98 | the row loop appends exactly the kept samples, all within bounds |
| SolarWind.ParsePlasma | scripts/swind_simple.py:62-113 | rejects a payload that is not a list of at least 2 rows, a header that is not a list, a missing column, or no surviving row; otherwise returns a non-empty, strictly increasing series |
| SolarWind.LagFilter | scripts/swind_simple.py:121-124 | the lag filter never grows the series |
| SolarWind.LagFilterMembers | scripts/swind_simple.py:121-124 | a sample survives the lag filter iff it is in the input and no newer than the cutoff |
| SolarWind.LagFilterNone | scripts/swind_simple.py:121-124 | if every sample is newer than the cutoff, nothing survives |
| SolarWind.LagFilterPrefix | scripts/swind_simple.py:121-124 | on an increasing series the survivors are a prefix, and everything after it is newer than the cutoff |
| SolarWind.LagCut | scripts/swind_simple.py:121-124 | the lag step never grows the series |
| SolarWind.KeepNewest | scripts/swind_simple.py:126-127 | keeps exactly the newest min(n, 1440) samples, as a suffix |
| SolarWind.ApplyWindow | scripts/swind_simple.py:116-129 | at most 1440 samples; an empty input gives an empty output |
| SolarWind.ApplyWindowUnlagged | scripts/swind_simple.py:121-127 | with no lag, nothing is dropped by the lag step: the result is the newest min(n, 1440) samples |
| SolarWind.ApplyWindowMembers | scripts/swind_simple.py:116-129 | every kept sample comes from the input, and with a positive lag is no newer than the newest sample minus the lag |
| SolarWind.ApplyWindowLagged | scripts/swind_simple.py:121-127 | with a positive lag on an increasing series, the result is the last min(m, 1440) samples of the prefix of m samples that pass the cutoff |
| SolarWind.LagCutIncreasing | scripts/swind_simple.py:121-124 | the lag step keeps a series strictly increasing |
| SolarWind.KeepNewestIncreasing | scripts/swind_simple.py:126-127 | the window keeps a series strictly increasing |
| SolarWind.ApplyWindowIncreasing | scripts/swind_simple.py:116-129 | the windowed series is strictly increasing when its input is |
| SolarWind.BuildSwind | scripts/swind_simple.py:147-158 | parse errors propagate; an empty window is an error rather than an empty publication; a publication has 1 to 1440 strictly increasing samples; with no lag it succeeds iff parsing does |
| SolarWind.Normalize | scripts/swind_simple.py:73 | definition of `name.strip().lower()`; its properties are stated by SolarWind.TrimLeft, SolarWind.TrimRight and SolarWind.IndexMapIsLastMatch |
| SolarWind.IndexMap | scripts/swind_simple.py:70-73 | definition of the `idx` dictionary; its properties are stated by SolarWind.IndexMapIsLastMatch, SolarWind.IndexMapSnoc and SolarWind.ColumnIndex |
| SolarWind.ConvertRow | scripts/swind_simple.py:80-88 | definition of the `try` block for one row; its properties are stated by SolarWind.KeptMembers |
| SolarWind.InBounds | scripts/swind_simple.py:90-96 | definition of the sanity bounds; its properties are stated by SolarWind.Kept and SolarWind.KeptMembers |
| SolarWind.Dedup | scripts/swind_simple.py:105-113 | definition of the de-duplication loop; its properties are stated by SolarWind.DedupIncreasing, SolarWind.DedupKeepsFirst, SolarWind.DedupCovers and SolarWind.DedupByEpoch |
| SolarWind.Parsed | scripts/swind_simple.py:62-113 | definition of what `parse_plasma` returns or raises; its properties are stated by SolarWind.ParsedProperties and SolarWind.ParsePlasma |
| XRay.BandRecords | scripts/xray_simple.py:27 | a record survives iff it is in one of the two bands |
| XRay.CellIsRecord | scripts/xray_simple.py:30 | with no duplicate entries, a pivot cell holds v iff the feed has that (time, band, v) record |
| XRay.PivotFromMembers | scripts/xray_simple.py:30-31 | a pivot row comes from a short-band record with flux and a long-band partner with flux at the same time |
| XRay.PivotMembers | scripts/xray_simple.py:30-31 | (t, short, long) is a pivot row iff the feed has both band records at t with those fluxes; timestamps that lack a band are dropped |
| XRay.Floor10 | scripts/xray_simple.py:36 | the bin start is the 10-minute boundary at or below the instant |
| XRay.AddStart | scripts/xray_simple.py:39 | adding a bin start keeps the start list increasing and adds exactly that start |
| XRay.BinStarts | scripts/xray_simple.py:36-39 | the groups are listed in increasing order, and there is one for each bin that holds a sample |
| XRay.InBin | scripts/xray_simple.py:39 | a group holds exactly the samples whose floor is its bin start |
| XRay.MaxOf | scripts/xray_simple.py:39 | the maximum is at least every element and equals one of them |
| XRay.BinOfMaxima | scripts/xray_simple.py:39-42 | a bin's short and long values are at least those of every sample in it, and it is stamped at bin start plus 9 minutes |
| XRay.BinnedAt | scripts/xray_simple.py:39-42 | the i-th output bin is the group of the i-th bin start |
| XRay.BinnedStamps | scripts/xray_simple.py:39-42 | stamps strictly increase and fall in minute 9 of their 10-minute bin |
| XRay.BinnedMaxima | scripts/xray_simple.py:39 | each bin's values bound every sample of its bin and are attained by one of them |
| XRay.BinnedCovers | scripts/xray_simple.py:36-42 | every pivot sample has a bin stamped at its floor plus 9 minutes |
| XRay.StampInMinuteNine | scripts/xray_simple.py:42 | a stamp of bin start plus 9 minutes is 9 minutes past a 10-minute boundary |
| XRay.LagCut | scripts/xray_simple.py:45-49 | a bin survives iff its stamp is no later than the last allowed stamp; order is kept |
| XRay.KeepLast | scripts/xray_simple.py:56-57 | exactly the newest min(n, 150) bins, as a suffix |
| XRay.SuffixIncreasing | scripts/xray_simple.py:56-57 | a suffix of increasing stamps is increasing |
| XRay.KeepLastKeeps | scripts/xray_simple.py:56-57 | a bin no older than the oldest kept one is kept |
| XRay.Xray | scripts/xray_simple.py:19-57 | missing keys iff a required column is absent; duplicate entries iff two band records share time and band; success iff neither happens and both bands occur; the result is the newest min(n, 150) suffix of the lag-cut bins |
| XRay.XrayStamps | scripts/xray_simple.py:39-57 | at most 150 bins, with strictly increasing stamps in minute 9, none later than floor10(now − 21 min) + 9 min |
| XRay.XrayMaxima | scripts/xray_simple.py:30-42 | each published bin bounds every pivot sample of its bin, and its values are attained |
| XRay.XrayComplete | scripts/xray_simple.py:36-57 | every pivot sample inside the lag and the 150-bin window is represented by a published bin |
| XRay.HasDuplicate | scripts/xray_simple.py:30 | definition: two band records share a timestamp and a band, which `pivot` refuses; its properties are stated by XRay.Xray and XRay.CellIsRecord |
| XRay.HasBand | scripts/xray_simple.py:30-39 | definition: some record of the band exists, without which the pivot has no such column and the selection at line 39 fails; its properties are stated by XRay.Xray |
| XRay.PivotFrom | scripts/xray_simple.py:30 | definition of the pivot followed by `dropna`, one short-band record at a time; its properties are stated by XRay.PivotFromMembers |
| XRay.Pivot | scripts/xray_simple.py:30-31 | definition of the pivoted table; its properties are stated by XRay.PivotMembers and XRay.CellIsRecord |
| XRay.BinOf | scripts/xray_simple.py:39-42 | definition of one grouped row; its properties are stated by XRay.BinOfMaxima |
| XRay.Binned | scripts/xray_simple.py:36-42 | definition of the binned table; its properties are stated by XRay.BinnedAt, XRay.BinnedStamps, XRay.BinnedMaxima and XRay.BinnedCovers |
| XRay.LastAllowed | scripts/xray_simple.py:45-48 | definition of the newest allowed stamp; its properties are stated by XRay.StampInMinuteNine and XRay.XrayStamps |
| XRay.Allowed | scripts/xray_simple.py:44-49 | definition of the lag-cut bins; its properties are stated by XRay.LagCut, XRay.Xray and XRay.XrayComplete |
| Drap.TruncDiv | drap_reader.cpp:54-56 | the quotient truncates toward zero for negative dividends, as C `/` does |
| Drap.BinIndexAccepts | drap_reader.cpp:52-59 | a record is binned iff 1 ≤ age ≤ 86400 + 196 s, so a record from now or the future is rejected, and ages up to 196 s past a day still land in bin 0 |
| Drap.Wrap32 | drap_reader.cpp:54 | 32-bit wrap-around: the result is a C `int`, and in-range values are unchanged |
| Drap.BinIndexWrappedAgrees | drap_reader.cpp:52-56 | for age differences within ±4,000,000 s the 32-bit computation equals the exact one |
| Drap.BinIndexWrappedAcceptsStale | drap_reader.cpp:52-59 | as written, a record 9,847,689 s (about 114 days) old overflows into bin 0 and is accepted, although the exact index rejects it |
| Drap.StepY | drap_reader.cpp:58-64 | one record keeps the 440 slots |
| Drap.StepX | drap_reader.cpp:58-61 | one record keeps the 440 slots |
| Drap.YAfter | drap_reader.cpp:39-67 | after any input there are 440 y slots |
| Drap.XAfter | drap_reader.cpp:39-67 | after any input there are 440 x slots |
| Drap.AcceptedCount | drap_reader.cpp:39-66 | accepted ≤ lines read |
| Drap.CountPositive | drap_reader.cpp:72-75 | populated ≤ number of slots |
| Drap.YAfterGrows | drap_reader.cpp:30-64 | y never decreases as lines are read and stays ≥ 0 |
| Drap.YAfterNonNegative | drap_reader.cpp:30-64 | y is never negative |
| Drap.YAfterCoversRecords | drap_reader.cpp:63-64 | each accepted record's max is ≤ the final y of its bin |
| Drap.YAfterAttained | drap_reader.cpp:63-64 | a positive final y is the max of some accepted record in that bin |
| Drap.XAfterRange | drap_reader.cpp:61 | every x lies in [−(86400+196)/3600, 0]: accepted ages are negated hours within one day and 196 s |
| Drap.CountPositiveUpdate | drap_reader.cpp:63-75 | one slot update raises the populated count by at most 1, and not at all when the slot was already positive |
| Drap.PopulatedAtMostAccepted | drap_reader.cpp:63-75 | bins populated ≤ lines accepted |
| Drap.ZerosNotPositive | drap_reader.cpp:30-31 | the zeroed arrays have no populated bin |
| Drap.DrapCache.constructor | drap_reader.cpp:30-31 | both arrays start with 440 zeros |
| Drap.DrapCache.Ingest | drap_reader.cpp:46-66 | a line is accepted iff it was scanned and its bin is in range; an accepted line sets x[xi] and raises y[xi] to the running max; every other slot, and every slot for a garbled or rejected line, is unchanged |
| Drap.DrapCache.CountPopulated | drap_reader.cpp:72-75 | the counting loop returns the number of bins with y > 0, at most 440 |
| Drap.ReadStats | drap_reader.cpp:30-85 | lines read = input length; accepted = records in range ≤ lines read; populated = bins with y > 0 ≤ 440 and ≤ accepted; sparse iff populated < 220 |
| Drap.BinIndex | drap_reader.cpp:52-56 | definition of the exact bin index of a record's age, with C's truncating division; its properties are stated by Drap.BinIndexAccepts and Drap.BinIndexWrappedAgrees |
| Drap.BinIndexWrapped | drap_reader.cpp:52-56 | definition of the bin index as written, with the age narrowed to 32 bits and the subtraction and product wrapping; its properties are stated by Drap.BinIndexWrappedAgrees and Drap.BinIndexWrappedAcceptsStale |
| Drap.Accepts | drap_reader.cpp:46-59 | definition: a line is accepted when it scanned and its bin index lies in 0..439; its properties are stated by Drap.BinIndexAccepts, Drap.AcceptedCount and Drap.DrapCache.Ingest |
| BandConditions.Clamp01 | scripts/voacap_bandconditions.py:52-55 | the result is in [0, 1], equals its input on [0, 1], NaN gives 0, and out-of-range values and infinities go to the nearer end |
| BandConditions.ModeName | scripts/voacap_bandconditions.py:62-63 | the mode is always "CW" |
| BandConditions.PathName | scripts/voacap_bandconditions.py:66-67 | "LP" iff the path is 1, "SP" otherwise |
| BandConditions.ResolveRx | scripts/voacap_bandconditions.py:70-74 | the default receiver replaces the given one only when both coordinates are within 1e-9 of 0 and both defaults are present |
| BandConditions.Score | scripts/voacap_bandconditions.py:77-115 | in [0, 1]; 0 with no signal object, 0 when muf_day < 1e-4 whatever the SNR, 0 when neither the prediction nor the signal has an SNR; otherwise the clamped shape of the SNR found |
| BandConditions.HourRow | scripts/voacap_bandconditions.py:118-125 | exactly 9 values in [0, 1]: the scores of the first predictions, zero-padded when there are fewer than 9 |
| BandConditions.ComputeRows | scripts/voacap_bandconditions.py:179-194 | 24 rows, row h being the hour row of the engine's predictions for hour h |
| BandConditions.SumAppend | scripts/voacap_bandconditions.py:148 | the byte sum is additive over concatenation |
| BandConditions.Decimal | scripts/voacap_bandconditions.py:151 | the decimal string of a number is a non-empty string of digits |
| BandConditions.DecimalRoundTrip | scripts/voacap_bandconditions.py:151 | reading back the decimal string gives the number |
| BandConditions.CacheKey | scripts/voacap_bandconditions.py:128-151 | the key is all digits, and reading it back gives Σbytes + 1315423911·len |
| BandConditions.CacheKeySwap | scripts/voacap_bandconditions.py:148-151 | swapping any two bytes of the canonical string leaves the key unchanged |
| BandConditions.CacheKeyCollision | scripts/voacap_bandconditions.py:128-151 | as written, month 3 of 2025 and month 5 of 2023 with otherwise equal parameters have different canonical strings but the same key |
| BandConditions.Encode | scripts/voacap_bandconditions.py:128-151 | the base-256 encoding is positive, and at least 256 for non-empty input |
| BandConditions.EncodeInjective | scripts/voacap_bandconditions.py:128-151 | equal encodings come from equal byte strings |
| BandConditions.CacheKeyExact | scripts/voacap_bandconditions.py:128-151 | the corrected key is a string of digits |
| BandConditions.CacheKeyExactInjective | scripts/voacap_bandconditions.py:128-151 | the corrected key determines the parameters: equal keys mean equal canonical strings |
| BandConditions.LoadCache | scripts/voacap_bandconditions.py:154-167 | a hit iff ttl > 0, the file exists, its age is ≤ ttl and its rows field is a list of 24 rows; a hit returns those rows |
| BandConditions.SaveCache | scripts/voacap_bandconditions.py:170-176 | saving touches only its own key's file and never fails |
| BandConditions.SaveThenLoad | scripts/voacap_bandconditions.py:154-176 | within the ttl, a completed save of 24 rows is read back unchanged, and a truncated write is a miss |
| BandConditions.Fmt | scripts/voacap_bandconditions.py:58-59 | a printed row keeps its length and its values in [0, 1] |
| BandConditions.RowsOf | scripts/voacap_bandconditions.py:227-233 | the table always has 24 rows |
| BandConditions.Main | scripts/voacap_bandconditions.py:220-248 | exit 2 iff month is outside 1..12 or utc outside 0..23, and then nothing is printed, computed or cached; otherwise the cache is looked up under the key of the canonical bytes (the key derivation is a parameter); a hit uses the cached rows without running the engine, and a miss computes and saves the rows; then exit 0 with the printed table iff `ssn` is finite, and otherwise exit 1 with nothing printed, because `int(round(ssn))` raises on NaN or an infinity after the cache step |
| BandConditions.LinesOrder | scripts/voacap_bandconditions.py:235-248 | 26 lines: the utc hour's row unlabelled, the header, hours 1..23, then hour 0, with each hour labelled exactly once |
| BandConditions.MainOutputOrder | scripts/voacap_bandconditions.py:235-248 | a run with a valid month and utc and a finite `ssn` exits 0 and prints its table in that order |
| BandConditions.SharedKeyServesOtherRows | scripts/voacap_bandconditions.py:227-233 | with the byte-sum key, a run whose parameters share a key with an earlier run that computed and saved its table, within the ttl, prints that earlier table and does not run the engine |
| BandConditions.MonthCollisionServesStaleTable | scripts/voacap_bandconditions.py:128-151 | as written, a request for month 3 of 2025 after a request for month 5 of 2023 prints the 2023 table |
| BandConditions.FileNameInjective | scripts/voacap_bandconditions.py:157 | distinct keys name distinct cache files |
| BandConditions.ExactKeySeparatesRuns | scripts/voacap_bandconditions.py:227-233 | with the corrected key, a run never changes what a later run with different parameters finds in the cache |
| BandConditions.NearZero | scripts/voacap_bandconditions.py:71 | definition of `abs(v) < 1e-9`, false for NaN and the infinities; its properties are stated by BandConditions.ResolveRx |
| BandConditions.MufDay | scripts/voacap_bandconditions.py:90 | definition of `muf_day`, 0.0 when absent; its properties are stated by BandConditions.Score |
| BandConditions.SnrOf | scripts/voacap_bandconditions.py:97-99 | definition of the `snr_xx` lookup, the prediction's before the signal's; its properties are stated by BandConditions.Score |
| BandConditions.Sum | scripts/voacap_bandconditions.py:151 | definition of `sum(s)`; its properties are stated by BandConditions.SumAppend and BandConditions.CacheKeySwap |
| BandConditions.FileName | scripts/voacap_bandconditions.py:157 | definition of `bandcond_{key}.json`; its properties are stated by BandConditions.FileNameInjective |
| BandConditions.MakeHeader | scripts/voacap_bandconditions.py:236-242 | definition of the header fields; its properties are stated by BandConditions.LinesOrder |
| BandConditions.LineAt | scripts/voacap_bandconditions.py:244-248 | definition of printed line i; its properties are stated by BandConditions.LinesOrder |
| BandConditions.Lines | scripts/voacap_bandconditions.py:244-248 | definition of the printed lines; its properties are stated by BandConditions.LinesOrder and BandConditions.MainOutputOrder |

## Left out

- Network fetches are not modelled: the upstream JSON, text and CSV arrive as parsed parameters.
- File I/O is not modelled. This covers the temporary-file-and-rename write, the X-ray output file, the DRAP input stream and the band-conditions cache files. The cache directory is a map from file name to modification time and parsed contents.
- Exit code 1 in `drap_reader.cpp` (wrong argument count, unreadable file) is not modelled. Those are I/O failures.
- How the printed text looks is not modelled. This covers `%.2f`, `%8.2e`, `%g`, and the value that Python `round` and banker's rounding give for a finite number. `Fmt` keeps the values and only clamps what is printed. The exception `int(round(ssn))` raises on a NaN or infinite `ssn` is modelled, by BandConditions.Main.
- Regular expressions, `strptime`, `pd.to_datetime`, `float()` and `json.loads` are not modelled. They become parameters or datatypes: forecast lines as `Option` rows, the swind `Converters`, and the DRAP `Line` (garbled or scanned).
- BandConditions.CacheKey takes the canonical `json.dumps(..., sort_keys=True)` byte string as an input. Producing that string is not modelled.
- Wall clocks are not modelled. `now` is a parameter.
- BandConditions.Score keeps the sigmoid and `**0.4` curve abstract as `Shape`, because those are floating-point numerics. The model proves only the gating and the [0, 1] range.
- The dvoacap prediction engine and its geographic point conversion are not modelled. The engine is a function from hour to predictions.
- Debug printing to stderr is not modelled.
- Floating point is modelled as `real` wherever the code only compares finite values:
  - swind bounds;
  - X-ray fluxes;
  - the DRAP y array.
- Drap.StepX stores age / −3600 as an exact real rather than a `float`.
- NaN fields produced by `sscanf` are not modelled. A scanned record is finite.
- The C `int` counters `n_lines` and `accepted` are unbounded here. Overflow after 2^31 lines is not modelled.
- SolarWind.SortByEpoch is a functional stable insertion sort. Python's in-place `list.sort` is not modelled as an in-place array update. Its observable results (permutation, order, stability) are proved.
- SolarWind.TrimLeft and SolarWind.TrimRight treat ASCII whitespace only. Lower-casing covers A–Z only. Unicode stripping and case folding are not modelled.
- KpStream.LoadDgdSeries does not model the two sorts by date and by time: the rows are taken in the order given. ExpandedIncreasing shows that for rows in date order both sorts are the identity.
- XRay.Xray does not model per-record missing fields or `to_datetime` failures. Records are already typed.
- When every timestamp is dropped, the code writes an empty output rather than failing. The model follows the code.
- BandConditions.LoadCache checks that the cached rows form a list of 24 rows. It does not check the shape of each row, because the code does not either.
- The solar-wind lag defaults to 0 in the code. The model takes the lag as a parameter and proves both the lag = 0 and the lag > 0 behaviour.
- Drap.DrapCache.Ingest uses the exact bin index, not the 32-bit product of the code. BinIndexWrappedAgrees shows the two agree for ages within ±4,000,000 s; beyond that the code's product overflows (see Findings).
- Drap.ReadStats counts with the exact bin index, for the same reason as Drap.DrapCache.Ingest.
- BandConditions.ResolveRx is not connected to the rest of the model. The resolved receiver feeds only the prediction engine, and the engine is not modelled.
- BandConditions.Main takes the key derivation as a parameter. The lemmas apply it to the byte-sum key as written (SharedKeyServesOtherRows, MonthCollisionServesStaleTable) and to the corrected key (ExactKeySeparatesRuns).

## Findings

| source | as written | input that shows it | evidently intended | confidence | as-written member | corrected member |
|---|---|---|---|---|---|---|
| drap_reader.cpp:52-59 | `440 * (86400 - age)` is computed in 32-bit `int` and wraps for ages beyond about 5.0 million seconds, so the bounds check can pass for records months old | a record 9,847,689 s old (about 114 days): the product wraps to a value whose quotient is 0, so it is accepted into bin 0 | only records between 1 s and just over 24 h old are binned | medium; not executed | Drap.BinIndexWrappedAcceptsStale | Drap.BinIndexAccepts |
| scripts/voacap_bandconditions.py:128-151 | the cache key is the sum of the canonical string's bytes plus a multiple of its length, so any two parameter sets whose canonical strings are byte permutations of each other share a key | month 3 of 2025 against month 5 of 2023, all other parameters equal: the two canonical strings differ only by the digits 3 and 5 trading places | distinct parameters get distinct cache entries, so a cached table is never served for another month or year | medium; not executed | BandConditions.MonthCollisionServesStaleTable | BandConditions.ExactKeySeparatesRuns |
