/** The solar-wind producer: plasma samples `(epoch, density, speed)` parsed
    from the upstream JSON table, sorted and de-duplicated by epoch, then cut
    to a trailing window of at most 1440 samples.

    Epochs are integer seconds since 1970-01-01T00:00:00Z. */
module SolarWind {
  import opened Common

  const KEEP_N: nat := 1440
  const LAG_SECONDS: int := 0
  const MAX_DENSITY: real := 500.0
  const MAX_SPEED: real := 5000.0

  /** A JSON value, as far as the parser looks at it: strings, numbers, lists,
      and everything else (null, booleans, objects). */
  datatype Json = JStr(s: string) | JNum(x: real) | JList(items: seq<Json>) | JOther

  /** The two conversions the parser applies to a cell: `iso_to_epoch(str(cell))`
      and `float(cell)`. `None` stands for the conversion raising, and for
      `float` also for a NaN or infinite result (those never pass the bounds). */
  datatype Converters = Converters(epoch: Json -> Option<int>, number: Json -> Option<real>)

  datatype Sample = Sample(t: int, density: real, speed: real)

  datatype SwindError =
    | BadShape
    | BadHeader
    | MissingColumn(name: string)
    | NoValidSamples
    | EmptyWindow

  // ---------------------------------------------------------------------------
  // Header lookup
  // ---------------------------------------------------------------------------

  /** The characters Python's `str.strip()` removes that are below 128. */
  predicate IsSpace(c: char)
  {
    c == ' ' || (9 <= c as int <= 13) || (28 <= c as int <= 31)
  }

  function TrimLeft(s: string): (r: string)
    ensures |r| <= |s| && r == s[|s| - |r|..]
    ensures r != [] ==> !IsSpace(r[0])
    ensures forall i :: 0 <= i < |s| - |r| ==> IsSpace(s[i])
  {
    if s != [] && IsSpace(s[0]) then TrimLeft(s[1..]) else s
  }

  function TrimRight(s: string): (r: string)
    ensures |r| <= |s| && r == s[..|r|]
    ensures r != [] ==> !IsSpace(r[|r| - 1])
    ensures forall i :: |r| <= i < |s| ==> IsSpace(s[i])
  {
    if s != [] && IsSpace(s[|s| - 1]) then TrimRight(s[..|s| - 1]) else s
  }

  function LowerChar(c: char): char
  {
    if 'A' <= c <= 'Z' then (c as int + 32) as char else c
  }

  /** `name.strip().lower()` for ASCII text. */
  function Normalize(name: string): string
  {
    var t := TrimRight(TrimLeft(name));
    seq(|t|, i requires 0 <= i < |t| => LowerChar(t[i]))
  }

  /** Header cell `i` is a string that names column `key`. */
  predicate NamesColumn(header: seq<Json>, i: int, key: string)
  {
    0 <= i < |header| && header[i].JStr? && Normalize(header[i].s) == key
  }

  /** The `idx` dictionary after the header loop: later cells overwrite earlier ones. */
  function IndexMap(header: seq<Json>): map<string, nat>
  {
    if header == [] then map[]
    else
      var n := |header| - 1;
      var m := IndexMap(header[..n]);
      if header[n].JStr? then m[Normalize(header[n].s) := n] else m
  }

  /** A name is a key iff some string cell names it, and it maps to the LAST such cell. */
  lemma {:induction false} IndexMapIsLastMatch(header: seq<Json>, key: string)
    ensures key in IndexMap(header) <==> exists i :: NamesColumn(header, i, key)
    ensures key in IndexMap(header) ==>
      NamesColumn(header, IndexMap(header)[key], key) &&
      forall j :: NamesColumn(header, j, key) ==> j <= IndexMap(header)[key]
  {
    if header != [] {
      var n := |header| - 1;
      IndexMapIsLastMatch(header[..n], key);
      NamesColumnPrefix(header, n, key);
      if NamesColumn(header, n, key) {
        IndexMapLastIsNewest(header, key);
      } else {
        IndexMapLastIsOlder(header, key);
      }
    }
  }

  /** Below `n`, a cell names a column of the prefix iff it names one of the header. */
  lemma NamesColumnPrefix(header: seq<Json>, n: nat, key: string)
    requires n <= |header|
    ensures forall i :: 0 <= i < n ==> NamesColumn(header[..n], i, key) == NamesColumn(header, i, key)
    ensures forall i :: NamesColumn(header[..n], i, key) ==> i < n
  {
    forall i | 0 <= i < n ensures NamesColumn(header[..n], i, key) == NamesColumn(header, i, key) {
      assert header[..n][i] == header[i];
    }
  }

  /** Step of IndexMapIsLastMatch when the newest cell names the key. */
  lemma IndexMapLastIsNewest(header: seq<Json>, key: string)
    requires header != [] && NamesColumn(header, |header| - 1, key)
    ensures key in IndexMap(header) && IndexMap(header)[key] == |header| - 1
    ensures forall j :: NamesColumn(header, j, key) ==> j <= IndexMap(header)[key]
  {
  }

  /** Step of IndexMapIsLastMatch when the newest cell does not name the key. */
  lemma IndexMapLastIsOlder(header: seq<Json>, key: string)
    requires header != [] && !NamesColumn(header, |header| - 1, key)
    ensures (key in IndexMap(header) <==> key in IndexMap(header[..|header| - 1]))
    ensures key in IndexMap(header) ==> IndexMap(header)[key] == IndexMap(header[..|header| - 1])[key]
    ensures forall j :: NamesColumn(header, j, key) ==> j < |header| - 1
  {
    var n := |header| - 1;
    forall j | NamesColumn(header, j, key) ensures j < n {
      assert j != n;
    }
  }

  lemma IndexMapSnoc(header: seq<Json>, i: nat)
    requires i < |header|
    ensures IndexMap(header[..i + 1]) ==
      (if header[i].JStr? then IndexMap(header[..i])[Normalize(header[i].s) := i] else IndexMap(header[..i]))
  {
    assert header[..i + 1][..i] == header[..i];
    assert header[..i + 1][i] == header[i];
  }

  /** The header loop of `parse_plasma`. */
  method ColumnIndex(header: seq<Json>) returns (idx: map<string, nat>)
    ensures idx == IndexMap(header)
    ensures forall key :: key in idx ==> NamesColumn(header, idx[key], key)
  {
    idx := map[];
    for i := 0 to |header|
      invariant idx == IndexMap(header[..i])
    {
      IndexMapSnoc(header, i);
      var name := header[i];
      if name.JStr? {
        idx := idx[Normalize(name.s) := i];
      }
    }
    assert header[..|header|] == header;
    forall key | key in idx ensures NamesColumn(header, idx[key], key) {
      IndexMapIsLastMatch(header, key);
    }
  }

  // ---------------------------------------------------------------------------
  // Row conversion and range filter
  // ---------------------------------------------------------------------------

  datatype Columns = Columns(time: nat, density: nat, speed: nat)

  /** The `try` block for one data row: `None` when the row is not a list, an
      index is out of range, or a conversion fails. */
  function ConvertRow(row: Json, cols: Columns, conv: Converters): Option<Sample>
  {
    if !row.JList? then None
    else
      var items := row.items;
      if cols.time < |items| && cols.density < |items| && cols.speed < |items| then
        var t := conv.epoch(items[cols.time]);
        var d := conv.number(items[cols.density]);
        var v := conv.number(items[cols.speed]);
        if t.Some? && d.Some? && v.Some? then Some(Sample(t.value, d.value, v.value)) else None
      else None
  }

  /** The sanity bounds a sample must meet to be kept. */
  predicate InBounds(s: Sample)
  {
    s.t > 0 && 0.0 <= s.density <= MAX_DENSITY && 0.0 <= s.speed <= MAX_SPEED
  }

  function KeptSample(row: Json, cols: Columns, conv: Converters): Option<Sample>
  {
    var c := ConvertRow(row, cols, conv);
    if c.Some? && InBounds(c.value) then c else None
  }

  /** The samples the row loop keeps, in row order. */
  function Kept(rows: seq<Json>, cols: Columns, conv: Converters): (r: seq<Sample>)
    ensures forall i :: 0 <= i < |r| ==> InBounds(r[i])
  {
    if rows == [] then []
    else
      var n := |rows| - 1;
      var k := KeptSample(rows[n], cols, conv);
      Kept(rows[..n], cols, conv) + (if k.Some? then [k.value] else [])
  }

  /** A sample is kept iff some row converts to it and it is within bounds. */
  lemma {:induction false} KeptMembers(rows: seq<Json>, cols: Columns, conv: Converters, s: Sample)
    ensures s in Kept(rows, cols, conv) <==>
      InBounds(s) && exists i :: 0 <= i < |rows| && ConvertRow(rows[i], cols, conv) == Some(s)
  {
    if rows != [] {
      var n := |rows| - 1;
      KeptMembers(rows[..n], cols, conv, s);
      assert forall i :: 0 <= i < n ==> rows[..n][i] == rows[i];
    }
  }

  // ---------------------------------------------------------------------------
  // Stable sort by epoch
  // ---------------------------------------------------------------------------

  predicate Sorted(s: seq<Sample>)
  {
    forall i, j :: 0 <= i < j < |s| ==> s[i].t <= s[j].t
  }

  predicate StrictlyIncreasing(s: seq<Sample>)
  {
    forall i, j :: 0 <= i < j < |s| ==> s[i].t < s[j].t
  }

  /** Insert `x` after every element whose epoch is not greater than its own. */
  function Insert(x: Sample, s: seq<Sample>): (r: seq<Sample>)
    ensures |r| == |s| + 1
  {
    if s == [] then [x]
    else if x.t < s[0].t then [x] + s
    else [s[0]] + Insert(x, s[1..])
  }

  /** `out.sort(key=lambda x: x[0])`: a stable insertion sort on epochs. */
  function SortByEpoch(s: seq<Sample>): (r: seq<Sample>)
    ensures |r| == |s|
  {
    if s == [] then []
    else
      var n := |s| - 1;
      Insert(s[n], SortByEpoch(s[..n]))
  }

  /** Insertion adds exactly one sample and loses none. */
  lemma {:induction false} InsertPermutes(x: Sample, s: seq<Sample>)
    ensures multiset(Insert(x, s)) == multiset(s) + multiset{x}
  {
    if s != [] && x.t >= s[0].t {
      InsertPermutes(x, s[1..]);
      assert s == [s[0]] + s[1..];
    }
  }

  /** Sorting is a permutation. */
  lemma {:induction false} SortByEpochPermutes(s: seq<Sample>)
    ensures multiset(SortByEpoch(s)) == multiset(s)
  {
    if s != [] {
      var n := |s| - 1;
      var sorted := SortByEpoch(s[..n]);
      SortByEpochPermutes(s[..n]);
      InsertPermutes(s[n], sorted);
      assert SortByEpoch(s) == Insert(s[n], sorted);
      assert s == s[..n] + [s[n]];
      assert multiset(s) == multiset(s[..n]) + multiset{s[n]};
    }
  }

  lemma {:induction false} InsertSorted(x: Sample, s: seq<Sample>)
    requires Sorted(s)
    ensures Sorted(Insert(x, s))
  {
    if s != [] && x.t >= s[0].t {
      InsertSorted(x, s[1..]);
      var tail := Insert(x, s[1..]);
      InsertPermutes(x, s[1..]);
      forall y | y in tail ensures s[0].t <= y.t {
        assert y in multiset(tail);
        assert y == x || y in multiset(s[1..]);
      }
    }
  }

  lemma {:induction false} SortByEpochSorted(s: seq<Sample>)
    ensures Sorted(SortByEpoch(s))
  {
    if s != [] {
      var n := |s| - 1;
      SortByEpochSorted(s[..n]);
      InsertSorted(s[n], SortByEpoch(s[..n]));
    }
  }

  /** The samples of `s` with epoch `k`, in their order in `s`. */
  function WithEpoch(s: seq<Sample>, k: int): seq<Sample>
  {
    if s == [] then []
    else (if s[0].t == k then [s[0]] else []) + WithEpoch(s[1..], k)
  }

  lemma {:induction false} WithEpochAppend(a: seq<Sample>, b: seq<Sample>, k: int)
    ensures WithEpoch(a + b, k) == WithEpoch(a, k) + WithEpoch(b, k)
  {
    if a == [] {
      assert a + b == b;
    } else {
      WithEpochAppend(a[1..], b, k);
      assert a + b == [a[0]] + (a[1..] + b);
      WithEpochCons(a[0], a[1..] + b, k);
      var head := if a[0].t == k then [a[0]] else [];
      assert head + (WithEpoch(a[1..], k) + WithEpoch(b, k)) == (head + WithEpoch(a[1..], k)) + WithEpoch(b, k);
    }
  }

  lemma {:induction false} WithEpochNone(s: seq<Sample>, k: int)
    requires forall i :: 0 <= i < |s| ==> s[i].t != k
    ensures WithEpoch(s, k) == []
  {
    if s != [] {
      WithEpochNone(s[1..], k);
    }
  }

  lemma SortedTail(s: seq<Sample>)
    requires Sorted(s) && s != []
    ensures Sorted(s[1..])
  {
    forall i, j | 0 <= i < j < |s| - 1 ensures s[1..][i].t <= s[1..][j].t {
      assert s[1..][i] == s[i + 1] && s[1..][j] == s[j + 1];
    }
  }

  /** Consing one sample in front adds it to its epoch's samples, and only there. */
  lemma WithEpochCons(y: Sample, s: seq<Sample>, k: int)
    ensures WithEpoch([y] + s, k) == (if y.t == k then [y] else []) + WithEpoch(s, k)
  {
    assert ([y] + s)[0] == y && ([y] + s)[1..] == s;
  }

  /** Inserting in front of a sorted sequence whose epochs are all later. */
  lemma InsertStableFront(x: Sample, s: seq<Sample>, k: int)
    requires Sorted(s) && s != [] && x.t < s[0].t
    ensures WithEpoch([x] + s, k) == WithEpoch(s, k) + (if x.t == k then [x] else [])
  {
    WithEpochCons(x, s, k);
    if x.t == k {
      forall i | 0 <= i < |s| ensures s[i].t != k {
        assert s[0].t <= s[i].t;
      }
      WithEpochNone(s, k);
    }
  }

  lemma {:induction false} InsertStable(x: Sample, s: seq<Sample>, k: int)
    requires Sorted(s)
    ensures WithEpoch(Insert(x, s), k) == WithEpoch(s, k) + (if x.t == k then [x] else [])
  {
    if s == [] {
      WithEpochCons(x, [], k);
      assert Insert(x, s) == [x] + [];
    } else if x.t < s[0].t {
      InsertStableFront(x, s, k);
    } else {
      SortedTail(s);
      InsertStable(x, s[1..], k);
      InsertStableStep(x, s, k);
    }
  }

  /** The inductive step of `InsertStable`: inserting past the head. */
  lemma InsertStableStep(x: Sample, s: seq<Sample>, k: int)
    requires s != [] && s[0].t <= x.t
    requires WithEpoch(Insert(x, s[1..]), k) == WithEpoch(s[1..], k) + (if x.t == k then [x] else [])
    ensures WithEpoch(Insert(x, s), k) == WithEpoch(s, k) + (if x.t == k then [x] else [])
  {
    var rest := Insert(x, s[1..]);
    var head := if s[0].t == k then [s[0]] else [];
    var tp := if x.t == k then [x] else [];
    assert Insert(x, s) == [s[0]] + rest;
    WithEpochCons(s[0], rest, k);
    assert WithEpoch(s, k) == head + WithEpoch(s[1..], k);
    assert head + (WithEpoch(s[1..], k) + tp) == (head + WithEpoch(s[1..], k)) + tp;
  }

  lemma WithEpochSnoc(s: seq<Sample>, k: int)
    requires s != []
    ensures WithEpoch(s, k) == WithEpoch(s[..|s| - 1], k) + (if s[|s| - 1].t == k then [s[|s| - 1]] else [])
  {
    var n := |s| - 1;
    assert s == s[..n] + [s[n]];
    WithEpochAppend(s[..n], [s[n]], k);
    assert WithEpoch([s[n]], k) == (if s[n].t == k then [s[n]] else []) + WithEpoch([s[n]][1..], k);
  }

  /** Stability: sorting keeps the relative order of samples with equal epochs. */
  lemma {:induction false} SortByEpochStable(s: seq<Sample>, k: int)
    ensures WithEpoch(SortByEpoch(s), k) == WithEpoch(s, k)
  {
    if s != [] {
      var n := |s| - 1;
      SortByEpochStable(s[..n], k);
      SortByEpochSorted(s[..n]);
      InsertStable(s[n], SortByEpoch(s[..n]), k);
      WithEpochSnoc(s, k);
    }
  }

  /** An element with no earlier element of the same epoch heads that epoch's samples. */
  lemma {:induction false} FirstOfEpoch(s: seq<Sample>, i: nat)
    requires i < |s| && forall j :: 0 <= j < i ==> s[j].t != s[i].t
    ensures WithEpoch(s, s[i].t) != [] && WithEpoch(s, s[i].t)[0] == s[i]
  {
    if i > 0 {
      FirstOfEpoch(s[1..], i - 1);
    }
  }

  // ---------------------------------------------------------------------------
  // De-duplication by strictly increasing epoch
  // ---------------------------------------------------------------------------

  /** The de-dup loop, from a state whose last kept epoch is `last`. */
  function Dedup(s: seq<Sample>, last: Option<int>): seq<Sample>
  {
    if s == [] then []
    else if last.None? || s[0].t > last.value then [s[0]] + Dedup(s[1..], Some(s[0].t))
    else Dedup(s[1..], last)
  }

  lemma {:induction false} DedupIncreasing(s: seq<Sample>, last: Option<int>)
    ensures last.Some? ==> forall i :: 0 <= i < |Dedup(s, last)| ==> Dedup(s, last)[i].t > last.value
    ensures StrictlyIncreasing(Dedup(s, last))
  {
    if s != [] {
      if last.None? || s[0].t > last.value {
        DedupIncreasing(s[1..], Some(s[0].t));
      } else {
        DedupIncreasing(s[1..], last);
      }
    }
  }

  /** Every kept sample is the first of its epoch in the loop's input. */
  lemma {:induction false} DedupKeepsFirst(s: seq<Sample>, last: Option<int>, x: Sample)
    requires x in Dedup(s, last)
    ensures exists i :: 0 <= i < |s| && s[i] == x && forall j :: 0 <= j < i ==> s[j].t != x.t
  {
    if last.None? || s[0].t > last.value {
      if x != s[0] {
        var rest := Dedup(s[1..], Some(s[0].t));
        assert x in rest;
        DedupKeepsFirst(s[1..], Some(s[0].t), x);
        DedupIncreasing(s[1..], Some(s[0].t));
        var i :| 0 <= i < |s[1..]| && s[1..][i] == x && forall j :: 0 <= j < i ==> s[1..][j].t != x.t;
        assert s[i + 1] == x;
        forall j | 0 <= j < i + 1 ensures s[j].t != x.t {
          if j > 0 { assert s[j] == s[1..][j - 1]; }
        }
      } else {
        assert s[0] == x;
      }
    } else {
      DedupKeepsFirst(s[1..], last, x);
      DedupIncreasing(s[1..], last);
      var i :| 0 <= i < |s[1..]| && s[1..][i] == x && forall j :: 0 <= j < i ==> s[1..][j].t != x.t;
      assert s[i + 1] == x;
      forall j | 0 <= j < i + 1 ensures s[j].t != x.t {
        if j > 0 { assert s[j] == s[1..][j - 1]; }
      }
    }
  }

  /** On sorted input every epoch beyond `last` survives. */
  lemma {:induction false} DedupCovers(s: seq<Sample>, last: Option<int>, i: nat)
    requires Sorted(s) && i < |s| && (last.None? || s[i].t > last.value)
    ensures exists x :: x in Dedup(s, last) && x.t == s[i].t
  {
    if last.None? || s[0].t > last.value {
      var rest := Dedup(s[1..], Some(s[0].t));
      if s[i].t == s[0].t {
        assert s[0] in Dedup(s, last);
      } else {
        assert s[i].t > s[0].t;
        DedupCovers(s[1..], Some(s[0].t), i - 1);
        var x :| x in rest && x.t == s[1..][i - 1].t;
        assert x in Dedup(s, last);
      }
    } else {
      assert i > 0;
      DedupCovers(s[1..], last, i - 1);
    }
  }

  /** The de-dup loop of `parse_plasma`. */
  method DedupByEpoch(sorted: seq<Sample>) returns (dedup: seq<Sample>)
    ensures dedup == Dedup(sorted, None)
    ensures StrictlyIncreasing(dedup)
  {
    dedup := [];
    var lastT: Option<int> := None;
    for i := 0 to |sorted|
      invariant dedup + Dedup(sorted[i..], lastT) == Dedup(sorted, None)
    {
      assert sorted[i..][1..] == sorted[i + 1..];
      var s := sorted[i];
      if lastT.None? || s.t > lastT.value {
        dedup := dedup + [s];
        lastT := Some(s.t);
      }
    }
    DedupIncreasing(sorted, None);
  }

  // ---------------------------------------------------------------------------
  // `parse_plasma`
  // ---------------------------------------------------------------------------

  /** What `parse_plasma` returns or raises. */
  function Parsed(payload: Json, conv: Converters): Result<seq<Sample>, SwindError>
  {
    if !payload.JList? || |payload.items| < 2 then Failure(BadShape)
    else if !payload.items[0].JList? then Failure(BadHeader)
    else
      var idx := IndexMap(payload.items[0].items);
      if "time_tag" !in idx then Failure(MissingColumn("time_tag"))
      else if "density" !in idx then Failure(MissingColumn("density"))
      else if "speed" !in idx then Failure(MissingColumn("speed"))
      else
        var kept := Kept(payload.items[1..], Columns(idx["time_tag"], idx["density"], idx["speed"]), conv);
        if kept == [] then Failure(NoValidSamples)
        else Success(Dedup(SortByEpoch(kept), None))
  }

  /** The samples `parse_plasma` filters, before sorting; defined when the header is usable. */
  function KeptOf(payload: Json, conv: Converters): seq<Sample>
    requires payload.JList? && |payload.items| >= 2 && payload.items[0].JList?
    requires var idx := IndexMap(payload.items[0].items);
      "time_tag" in idx && "density" in idx && "speed" in idx
  {
    var idx := IndexMap(payload.items[0].items);
    Kept(payload.items[1..], Columns(idx["time_tag"], idx["density"], idx["speed"]), conv)
  }

  /** The parser's output: strictly increasing epochs; every kept epoch present
      once; for a repeated epoch, the sample that came first in row order. */
  lemma ParsedProperties(payload: Json, conv: Converters)
    ensures Parsed(payload, conv).Success? ==>
      var out := Parsed(payload, conv).value;
      var kept := KeptOf(payload, conv);
      out != [] && StrictlyIncreasing(out) &&
      (forall i :: 0 <= i < |out| ==> InBounds(out[i])) &&
      (forall y :: y in kept ==> exists x :: x in out && x.t == y.t) &&
      (forall x :: x in out ==> WithEpoch(kept, x.t) != [] && WithEpoch(kept, x.t)[0] == x)
  {
    if Parsed(payload, conv).Success? {
      var out := Parsed(payload, conv).value;
      var kept := KeptOf(payload, conv);
      var sorted := SortByEpoch(kept);
      assert out == Dedup(sorted, None);
      assert kept != [] && kept[0] in kept;
      DedupIncreasing(sorted, None);
      SortByEpochSorted(kept);
      SortByEpochPermutes(kept);
      forall y | y in kept ensures exists x :: x in out && x.t == y.t {
        assert y in multiset(sorted);
        var i :| 0 <= i < |sorted| && sorted[i] == y;
        DedupCovers(sorted, None, i);
      }
      forall x | x in out ensures WithEpoch(kept, x.t) != [] && WithEpoch(kept, x.t)[0] == x {
        DedupKeepsFirst(sorted, None, x);
        var i :| 0 <= i < |sorted| && sorted[i] == x && forall j :: 0 <= j < i ==> sorted[j].t != x.t;
        FirstOfEpoch(sorted, i);
        SortByEpochStable(kept, x.t);
      }
      forall i | 0 <= i < |out| ensures InBounds(out[i]) {
        DedupKeepsFirst(sorted, None, out[i]);
        assert out[i] in multiset(kept);
      }
    }
  }

  /** The row loop of `parse_plasma`: convert each row and keep the in-bounds samples. */
  method FilterRows(rows: seq<Json>, cols: Columns, conv: Converters) returns (out: seq<Sample>)
    ensures out == Kept(rows, cols, conv)
    ensures forall i :: 0 <= i < |out| ==> InBounds(out[i])
  {
    out := [];
    for i := 0 to |rows|
      invariant out == Kept(rows[..i], cols, conv)
    {
      assert rows[..i + 1][..i] == rows[..i];
      var k := KeptSample(rows[i], cols, conv);
      if k.Some? {
        out := out + [k.value];
      }
    }
    assert rows[..|rows|] == rows;
  }

  /** `parse_plasma`: shape checks, header loop, row loop, sort, de-dup loop. */
  method ParsePlasma(payload: Json, conv: Converters) returns (res: Result<seq<Sample>, SwindError>)
    ensures res == Parsed(payload, conv)
    ensures res.Success? ==> res.value != [] && StrictlyIncreasing(res.value)
  {
    if !payload.JList? || |payload.items| < 2 {
      return Failure(BadShape);
    }
    var header := payload.items[0];
    if !header.JList? {
      return Failure(BadHeader);
    }
    var idx := ColumnIndex(header.items);
    if "time_tag" !in idx {
      return Failure(MissingColumn("time_tag"));
    }
    if "density" !in idx {
      return Failure(MissingColumn("density"));
    }
    if "speed" !in idx {
      return Failure(MissingColumn("speed"));
    }
    var cols := Columns(idx["time_tag"], idx["density"], idx["speed"]);
    var out := FilterRows(payload.items[1..], cols, conv);
    if out == [] {
      return Failure(NoValidSamples);
    }
    var sorted := SortByEpoch(out);
    var dedup := DedupByEpoch(sorted);
    assert out == KeptOf(payload, conv);
    res := Success(dedup);
    assert res == Parsed(payload, conv);
    ParsedProperties(payload, conv);
  }

  // ---------------------------------------------------------------------------
  // Trailing window (`apply_window`) and the publish check in `main`
  // ---------------------------------------------------------------------------

  /** The comprehension `[row for row in s if row[0] <= cutoff]`. */
  function LagFilter(s: seq<Sample>, cutoff: int): (r: seq<Sample>)
    ensures |r| <= |s|
  {
    if s == [] then []
    else (if s[0].t <= cutoff then [s[0]] else []) + LagFilter(s[1..], cutoff)
  }

  /** The lag cut keeps exactly the samples at or before the cutoff. */
  lemma {:induction false} LagFilterMembers(s: seq<Sample>, cutoff: int)
    ensures forall x :: x in LagFilter(s, cutoff) <==> x in s && x.t <= cutoff
  {
    if s != [] {
      LagFilterMembers(s[1..], cutoff);
      assert s == [s[0]] + s[1..];
    }
  }

  lemma {:induction false} LagFilterNone(s: seq<Sample>, cutoff: int)
    requires forall i :: 0 <= i < |s| ==> s[i].t > cutoff
    ensures LagFilter(s, cutoff) == []
  {
    if s != [] {
      LagFilterNone(s[1..], cutoff);
    }
  }

  lemma SliceIncreasing(s: seq<Sample>, lo: int, hi: int)
    requires StrictlyIncreasing(s) && 0 <= lo <= hi <= |s|
    ensures StrictlyIncreasing(s[lo..hi])
  {
    forall i, j | 0 <= i < j < hi - lo ensures s[lo..hi][i].t < s[lo..hi][j].t {
      assert s[lo..hi][i] == s[lo + i] && s[lo..hi][j] == s[lo + j];
    }
  }

  /** On increasing samples the lag cut keeps a prefix: every sample up to the
      first one past the cutoff. */
  lemma {:induction false} LagFilterPrefix(s: seq<Sample>, cutoff: int)
    requires StrictlyIncreasing(s)
    ensures LagFilter(s, cutoff) == s[..|LagFilter(s, cutoff)|]
    ensures forall i :: |LagFilter(s, cutoff)| <= i < |s| ==> s[i].t > cutoff
  {
    if s != [] {
      if s[0].t > cutoff {
        assert forall i :: 0 <= i < |s| ==> s[i].t > cutoff by {
          forall i | 0 < i < |s| ensures s[i].t > cutoff {
            assert s[0].t < s[i].t;
          }
        }
        LagFilterNone(s, cutoff);
      } else {
        var tail := s[1..];
        SliceIncreasing(s, 1, |s|);
        LagFilterPrefix(tail, cutoff);
        var r0 := LagFilter(tail, cutoff);
        assert LagFilter(s, cutoff) == [s[0]] + r0;
        assert [s[0]] + tail[..|r0|] == s[..|r0| + 1];
        forall i | |r0| + 1 <= i < |s| ensures s[i].t > cutoff {
          assert s[i] == tail[i - 1];
        }
      }
    }
  }

  /** The first step of `apply_window`: with a positive lag, drop every sample
      newer than `newest - lag`. */
  function LagCut(samples: seq<Sample>, lag: int): (r: seq<Sample>)
    ensures |r| <= |samples|
  {
    if samples == [] || lag <= 0 then samples
    else LagFilter(samples, samples[|samples| - 1].t - lag)
  }

  /** The second step of `apply_window`: keep at most the newest `KEEP_N`. */
  function KeepNewest(s: seq<Sample>): (r: seq<Sample>)
    ensures |r| == (if |s| < KEEP_N then |s| else KEEP_N)
    ensures r == s[|s| - |r|..]
  {
    if |s| > KEEP_N then s[|s| - KEEP_N..] else s
  }

  /** `apply_window`. */
  function ApplyWindow(samples: seq<Sample>, lag: int): (r: seq<Sample>)
    ensures |r| <= KEEP_N
    ensures samples == [] ==> r == []
  {
    KeepNewest(LagCut(samples, lag))
  }

  /** Without a positive lag the window is the newest `KEEP_N` samples. */
  lemma ApplyWindowUnlagged(samples: seq<Sample>, lag: int)
    requires lag <= 0
    ensures var r := ApplyWindow(samples, lag);
      |r| == (if |samples| < KEEP_N then |samples| else KEEP_N) && r == samples[|samples| - |r|..]
  {
    assert LagCut(samples, lag) == samples;
  }

  /** Every windowed sample is an input sample, and with a positive lag none is
      newer than the cutoff. */
  lemma ApplyWindowMembers(samples: seq<Sample>, lag: int, x: Sample)
    requires x in ApplyWindow(samples, lag)
    ensures x in samples
    ensures lag > 0 ==> x.t <= samples[|samples| - 1].t - lag
  {
    var c := LagCut(samples, lag);
    var r := KeepNewest(c);
    assert x in c;
    if lag > 0 {
      LagFilterMembers(samples, samples[|samples| - 1].t - lag);
    }
  }

  /** On increasing samples with a positive lag, the window is the newest
      `KEEP_N` of the samples at or before the cutoff (which form a prefix,
      by `LagFilterPrefix`). */
  lemma ApplyWindowLagged(samples: seq<Sample>, lag: int)
    requires StrictlyIncreasing(samples) && samples != [] && lag > 0
    ensures var m := |LagFilter(samples, samples[|samples| - 1].t - lag)|;
      var r := ApplyWindow(samples, lag);
      m <= |samples| && |r| == (if m < KEEP_N then m else KEEP_N) && r == samples[m - |r|..m]
  {
    var f := LagFilter(samples, samples[|samples| - 1].t - lag);
    LagFilterPrefix(samples, samples[|samples| - 1].t - lag);
    assert LagCut(samples, lag) == f;
    var r := KeepNewest(f);
    SuffixOfPrefix(samples, |f| - |r|, |f|);
  }

  lemma SuffixOfPrefix(s: seq<Sample>, lo: int, hi: int)
    requires 0 <= lo <= hi <= |s|
    ensures s[..hi][lo..] == s[lo..hi]
  {
  }

  lemma LagCutIncreasing(samples: seq<Sample>, lag: int)
    requires StrictlyIncreasing(samples)
    ensures StrictlyIncreasing(LagCut(samples, lag))
  {
    if samples != [] && lag > 0 {
      var f := LagCut(samples, lag);
      LagFilterPrefix(samples, samples[|samples| - 1].t - lag);
      SliceIncreasing(samples, 0, |f|);
      assert samples[0..|f|] == f;
    }
  }

  lemma KeepNewestIncreasing(s: seq<Sample>)
    requires StrictlyIncreasing(s)
    ensures StrictlyIncreasing(KeepNewest(s))
  {
    var r := KeepNewest(s);
    SliceIncreasing(s, |s| - |r|, |s|);
    assert s[|s| - |r|..|s|] == r;
  }

  /** The window of increasing samples is increasing. */
  lemma ApplyWindowIncreasing(samples: seq<Sample>, lag: int)
    requires StrictlyIncreasing(samples)
    ensures StrictlyIncreasing(ApplyWindow(samples, lag))
  {
    LagCutIncreasing(samples, lag);
    KeepNewestIncreasing(LagCut(samples, lag));
  }

  /** `main` without the fetch and the write: parse, window, and refuse an empty window. */
  method BuildSwind(payload: Json, conv: Converters, lag: int) returns (res: Result<seq<Sample>, SwindError>)
    ensures Parsed(payload, conv).Failure? ==> res == Failure(Parsed(payload, conv).error)
    ensures Parsed(payload, conv).Success? ==>
      var w := ApplyWindow(Parsed(payload, conv).value, lag);
      res == (if w == [] then Failure(EmptyWindow) else Success(w))
    ensures res.Success? ==> 0 < |res.value| <= KEEP_N && StrictlyIncreasing(res.value)
    ensures lag <= 0 ==> (res.Success? <==> Parsed(payload, conv).Success?)
  {
    var parsed := ParsePlasma(payload, conv);
    if parsed.Failure? {
      return Failure(parsed.error);
    }
    var samples := ApplyWindow(parsed.value, lag);
    ApplyWindowIncreasing(parsed.value, lag);
    if lag <= 0 {
      ApplyWindowUnlagged(parsed.value, lag);
    }
    if samples == [] {
      return Failure(EmptyWindow);
    }
    return Success(samples);
  }
}
