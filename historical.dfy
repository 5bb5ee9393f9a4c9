/**
 * Historical data for the charts (client/src/lib/historicalData.ts): the time window of a
 * range key, the ascending sort of fetched readings, and chunked-average downsampling.
 * Numbers are exact reals; `Math.round` is modelled as rounding half up, `floor(x + 1/2)`.
 */
module HistoricalData {
  import opened Schema
  import opened Arith
  import Sorting

  // ===== Time ranges =====

  datatype TimeRangeKey = Range24h | Range7d | Range30d

  datatype TimeRange = TimeRange(start: int, end: int, rangeLabel: string)  // `label` is a Dafny keyword

  const MillisPerHour: int := 60 * 60 * 1000

  function RangeHours(key: TimeRangeKey): nat {
    match key
    case Range24h => 24
    case Range7d => 24 * 7
    case Range30d => 24 * 30
  }

  function RangeLabel(key: TimeRangeKey): string {
    match key
    case Range24h => "24 Stunden"
    case Range7d => "7 Tage"
    case Range30d => "30 Tage"
  }

  /** The window of `key` ending at `now` (the `Date.now()` reading, in milliseconds). */
  function GetTimeRange(key: TimeRangeKey, now: int): (r: TimeRange)
    ensures r.end == now && r.start < r.end
    ensures r.end - r.start == RangeHours(key) * MillisPerHour
    ensures r.rangeLabel == RangeLabel(key)
  {
    TimeRange(now - RangeHours(key) * MillisPerHour, now, RangeLabel(key))
  }

  /** For the same `now`, the 24-hour window lies inside the 7-day one, which lies inside the 30-day one. */
  lemma RangesNested(now: int)
    ensures GetTimeRange(Range30d, now).start < GetTimeRange(Range7d, now).start < GetTimeRange(Range24h, now).start
    ensures GetTimeRange(Range7d, now).start - GetTimeRange(Range30d, now).start == 23 * 24 * MillisPerHour
  {
  }

  // ===== Sorting fetched readings =====

  ghost predicate Ascending(s: seq<HistoricalSensorData>) {
    forall i, j :: 0 <= i < j < |s| ==> s[i].timestamp <= s[j].timestamp
  }

  /** `data.sort((a, b) => a.timestamp - b.timestamp)`: ascending and a permutation of the input. */
  function SortByTimestamp(data: seq<HistoricalSensorData>): (r: seq<HistoricalSensorData>)
    ensures Ascending(r)
    ensures multiset(r) == multiset(data)
  {
    var r := Sorting.SortBy(data, (h: HistoricalSensorData) => h.timestamp);
    assert Sorting.SortedBy(r, (h: HistoricalSensorData) => h.timestamp);
    r
  }

  // ===== Rounding =====

  /** `Math.round`: the nearest integer, halves rounded up. */
  function RoundHalfUp(x: real): int {
    (x + 0.5).Floor
  }

  /** The rounded value is within half a unit of `x`; a tie goes up. */
  lemma RoundHalfUpNearest(x: real)
    ensures RoundHalfUp(x) as real - 0.5 <= x < RoundHalfUp(x) as real + 0.5
  {
  }

  /** `Math.round(x * 10) / 10`: `x` to one decimal place. */
  function RoundTenth(x: real): real {
    (RoundHalfUp(x * 10.0) as real) / 10.0
  }

  /** The rounded value is within 0.05 of `x` and has one decimal place. */
  lemma RoundTenthNearest(x: real)
    ensures RoundTenth(x) - 0.05 <= x < RoundTenth(x) + 0.05
    ensures (RoundTenth(x) * 10.0).Floor as real == RoundTenth(x) * 10.0
  {
    RoundHalfUpNearest(x * 10.0);
  }

  /** Rounding is monotone, so a mean inside [lo, hi] with integral lo and hi rounds into [lo, hi]. */
  lemma RoundWithin(x: real, lo: int, hi: int)
    requires lo as real <= x <= hi as real
    ensures lo <= RoundHalfUp(x) <= hi
  {
    RoundHalfUpNearest(x);
  }

  // ===== Channels and chunk averages =====

  /** The averaged channels of a reading. */
  datatype Channel = Moisture(j: nat) | Temperature | Humidity | WaterLevel

  function ChannelValue(r: HistoricalSensorData, c: Channel): real {
    match c
    case Moisture(j) => if j < |r.plantMoisture| then r.plantMoisture[j] else 0.0
    case Temperature => r.temperature
    case Humidity => r.humidity
    case WaterLevel => r.waterLevel
  }

  /** The sum of channel `c` over `chunk`, accumulated from the front as `forEach` does. */
  function ChannelSum(chunk: seq<HistoricalSensorData>, c: Channel): real {
    if chunk == [] then 0.0 else ChannelSum(chunk[..|chunk| - 1], c) + ChannelValue(chunk[|chunk| - 1], c)
  }

  function Mean(chunk: seq<HistoricalSensorData>, c: Channel): real
    requires chunk != []
  {
    ChannelSum(chunk, c) / (|chunk| as real)
  }

  /** One output point: the middle reading's timestamp and the rounded means of the chunk. */
  function ChunkAverage(chunk: seq<HistoricalSensorData>): (r: HistoricalSensorData)
    requires chunk != []
    ensures |r.plantMoisture| == 4 && r.timestamp == chunk[|chunk| / 2].timestamp
  {
    HistoricalSensorData(
      chunk[|chunk| / 2].timestamp,
      [RoundHalfUp(Mean(chunk, Moisture(0))) as real,
       RoundHalfUp(Mean(chunk, Moisture(1))) as real,
       RoundHalfUp(Mean(chunk, Moisture(2))) as real,
       RoundHalfUp(Mean(chunk, Moisture(3))) as real],
      RoundTenth(Mean(chunk, Temperature)),
      RoundHalfUp(Mean(chunk, Humidity)) as real,
      RoundHalfUp(Mean(chunk, WaterLevel)) as real)
  }

  /**
   * Each moisture channel, humidity and water level of a chunk's point is the chunk mean
   * rounded to a whole number; temperature is the mean rounded to one decimal.
   */
  lemma ChunkAverageRounds(chunk: seq<HistoricalSensorData>)
    requires chunk != []
    ensures var r := ChunkAverage(chunk);
      forall j :: 0 <= j < 4 ==>
        r.plantMoisture[j] - 0.5 <= Mean(chunk, Moisture(j)) < r.plantMoisture[j] + 0.5
        && r.plantMoisture[j].Floor as real == r.plantMoisture[j]
    ensures var r := ChunkAverage(chunk);
      r.temperature - 0.05 <= Mean(chunk, Temperature) < r.temperature + 0.05
      && r.humidity - 0.5 <= Mean(chunk, Humidity) < r.humidity + 0.5
      && r.waterLevel - 0.5 <= Mean(chunk, WaterLevel) < r.waterLevel + 0.5
  {
    var r := ChunkAverage(chunk);
    forall j | 0 <= j < 4
      ensures r.plantMoisture[j] - 0.5 <= Mean(chunk, Moisture(j)) < r.plantMoisture[j] + 0.5
      ensures r.plantMoisture[j].Floor as real == r.plantMoisture[j]
    {
      assert r.plantMoisture[j] == RoundHalfUp(Mean(chunk, Moisture(j))) as real;
      RoundHalfUpNearest(Mean(chunk, Moisture(j)));
    }
    RoundTenthNearest(Mean(chunk, Temperature));
    RoundHalfUpNearest(Mean(chunk, Humidity));
    RoundHalfUpNearest(Mean(chunk, WaterLevel));
  }

  // ===== Chunking =====

  function Min(a: int, b: int): int {
    if a < b then a else b
  }

  /** `Math.ceil(n / d)` on naturals. */
  function CeilDiv(n: nat, d: nat): nat
    requires d > 0
  {
    (n + d - 1) / d
  }

  /** The chunk size of a series of `n` readings reduced to at most `maxPoints`. */
  function Step(n: nat, maxPoints: nat): nat
    requires maxPoints > 0
  {
    CeilDiv(n, maxPoints)
  }

  function Flatten(cs: seq<seq<HistoricalSensorData>>): seq<HistoricalSensorData> {
    if cs == [] then [] else cs[0] + Flatten(cs[1..])
  }

  /**
   * `data.slice(i, i + step)` for i = 0, step, 2 step, ...: consecutive non-empty chunks of
   * at most `step` readings.
   */
  function Chunks(data: seq<HistoricalSensorData>, step: nat): (cs: seq<seq<HistoricalSensorData>>)
    requires step > 0
    ensures forall k :: 0 <= k < |cs| ==> 0 < |cs[k]| <= step
    decreases |data|
  {
    if data == [] then []
    else
      var k := Min(step, |data|);
      [data[..k]] + Chunks(data[k..], step)
  }

  /** The chunks together are exactly `data`, and there are `ceil(n / step)` of them. */
  lemma {:induction false} ChunksCover(data: seq<HistoricalSensorData>, step: nat)
    requires step > 0
    ensures Flatten(Chunks(data, step)) == data
    ensures |Chunks(data, step)| == CeilDiv(|data|, step)
    decreases |data|
  {
    if data != [] {
      var k := Min(step, |data|);
      var cs := Chunks(data, step);
      ChunksCover(data[k..], step);
      assert cs[1..] == Chunks(data[k..], step);
      assert data == data[..k] + data[k..];
      CeilDivStep(|data|, step);
    }
  }

  /** Removing one full chunk lowers the chunk count by one. */
  lemma CeilDivStep(n: nat, d: nat)
    requires d > 0 && n > 0
    ensures CeilDiv(n, d) == 1 + CeilDiv(n - Min(d, n), d)
  {
    if n <= d {
      DivUnique(n + d - 1, d, 1, n - 1);
      DivUnique(d - 1, d, 0, d - 1);
    } else {
      var q := (n - 1) / d;
      var r := (n - 1) % d;
      DivUnique(n + d - 1, d, q + 1, r);
      DivUnique(n - 1, d, q, r);
    }
  }

  /** Averages of the chunks, in order. */
  function Averages(cs: seq<seq<HistoricalSensorData>>): (r: seq<HistoricalSensorData>)
    requires forall k :: 0 <= k < |cs| ==> cs[k] != []
    ensures |r| == |cs|
    ensures forall k :: 0 <= k < |cs| ==> r[k] == ChunkAverage(cs[k])
  {
    if cs == [] then [] else [ChunkAverage(cs[0])] + Averages(cs[1..])
  }

  /** `downsampleData` as a function of its input. */
  function Downsample(data: seq<HistoricalSensorData>, maxPoints: nat): seq<HistoricalSensorData>
    requires maxPoints > 0
  {
    if |data| <= maxPoints then data
    else Averages(Chunks(data, Step(|data|, maxPoints)))
  }

  // ===== The loop of downsampleData =====

  /** A reading as the TypeScript type has it: exactly four moisture values. */
  predicate WellFormed(r: HistoricalSensorData) {
    |r.plantMoisture| == 4
  }

  /** The `forEach` over one chunk: channel sums accumulated reading by reading. */
  method SumChunk(chunk: seq<HistoricalSensorData>) returns (moisture: seq<real>, temperature: real, humidity: real, waterLevel: real)
    requires forall k :: 0 <= k < |chunk| ==> WellFormed(chunk[k])
    ensures |moisture| == 4
    ensures forall j :: 0 <= j < 4 ==> moisture[j] == ChannelSum(chunk, Moisture(j))
    ensures temperature == ChannelSum(chunk, Temperature)
    ensures humidity == ChannelSum(chunk, Humidity)
    ensures waterLevel == ChannelSum(chunk, WaterLevel)
  {
    moisture, temperature, humidity, waterLevel := [0.0, 0.0, 0.0, 0.0], 0.0, 0.0, 0.0;
    for t := 0 to |chunk|
      invariant |moisture| == 4
      invariant forall j :: 0 <= j < 4 ==> moisture[j] == ChannelSum(chunk[..t], Moisture(j))
      invariant temperature == ChannelSum(chunk[..t], Temperature)
      invariant humidity == ChannelSum(chunk[..t], Humidity)
      invariant waterLevel == ChannelSum(chunk[..t], WaterLevel)
    {
      var item := chunk[t];
      assert chunk[..t + 1][..t] == chunk[..t];
      assert chunk[..t + 1][t] == item;
      for j := 0 to 4
        invariant |moisture| == 4
        invariant forall q :: 0 <= q < j ==> moisture[q] == ChannelSum(chunk[..t + 1], Moisture(q))
        invariant forall q :: j <= q < 4 ==> moisture[q] == ChannelSum(chunk[..t], Moisture(q))
      {
        moisture := moisture[j := moisture[j] + item.plantMoisture[j]];
      }
      temperature := temperature + item.temperature;
      humidity := humidity + item.humidity;
      waterLevel := waterLevel + item.waterLevel;
    }
    assert chunk[..|chunk|] == chunk;
  }

  /** One iteration's output point. */
  method AverageChunk(chunk: seq<HistoricalSensorData>) returns (avg: HistoricalSensorData)
    requires chunk != []
    requires forall k :: 0 <= k < |chunk| ==> WellFormed(chunk[k])
    ensures avg == ChunkAverage(chunk)
  {
    var moisture, temperature, humidity, waterLevel := SumChunk(chunk);
    var count := |chunk| as real;
    avg := HistoricalSensorData(
      chunk[|chunk| / 2].timestamp,
      [RoundHalfUp(moisture[0] / count) as real,
       RoundHalfUp(moisture[1] / count) as real,
       RoundHalfUp(moisture[2] / count) as real,
       RoundHalfUp(moisture[3] / count) as real],
      RoundTenth(temperature / count),
      RoundHalfUp(humidity / count) as real,
      RoundHalfUp(waterLevel / count) as real);
  }

  /** `downsampleData(data, maxPoints)`: short series pass through, longer ones are chunked and averaged. */
  method DownsampleData(data: seq<HistoricalSensorData>, maxPoints: nat) returns (out: seq<HistoricalSensorData>)
    requires maxPoints > 0
    requires forall k :: 0 <= k < |data| ==> WellFormed(data[k])
    ensures out == Downsample(data, maxPoints)
  {
    if |data| <= maxPoints {
      return data;
    }
    var step := Step(|data|, maxPoints);
    assert step >= 1;
    out := AverageChunks(data, step);
  }

  /** The `for (i = 0; i < data.length; i += step)` loop of `downsampleData`. */
  method AverageChunks(data: seq<HistoricalSensorData>, step: nat) returns (out: seq<HistoricalSensorData>)
    requires step > 0
    requires forall k :: 0 <= k < |data| ==> WellFormed(data[k])
    ensures out == Averages(Chunks(data, step))
  {
    var n := |data|;
    ghost var full := Averages(Chunks(data, step));
    out := [];
    var i := 0;
    ghost var done := 0;
    assert data[done..] == data;
    while i < n
      invariant 0 <= i && done == Min(i, n)
      invariant out + Averages(Chunks(data[done..], step)) == full
      decreases n - i
    {
      var end := Min(i + step, n);
      var chunk := data[i..end];
      WellFormedSlice(data, i, end);
      var avg := AverageChunk(chunk);
      LoopStep(data, i, step, out, full, avg);
      out := out + [avg];
      i := i + step;
      done := end;
    }
    assert data[done..] == [];
  }

  lemma WellFormedSlice(data: seq<HistoricalSensorData>, i: nat, j: nat)
    requires i <= j <= |data|
    requires forall k :: 0 <= k < |data| ==> WellFormed(data[k])
    ensures forall k :: 0 <= k < j - i ==> WellFormed(data[i..j][k])
  {
  }

  /** One iteration of the loop keeps `out + (averages still to come) == full`. */
  lemma LoopStep(data: seq<HistoricalSensorData>, i: nat, step: nat, out: seq<HistoricalSensorData>, full: seq<HistoricalSensorData>,
                 avg: HistoricalSensorData)
    requires step > 0 && i < |data|
    requires out + Averages(Chunks(data[Min(i, |data|)..], step)) == full
    requires avg == ChunkAverage(data[i..Min(i + step, |data|)])
    ensures (out + [avg]) + Averages(Chunks(data[Min(i + step, |data|)..], step)) == full
  {
    NextChunk(data, i, step);
  }

  /** Unfolding the chunks of `data[i..]` once: the chunk at `i`, then the chunks after it. */
  lemma NextChunk(data: seq<HistoricalSensorData>, i: nat, step: nat)
    requires step > 0 && i < |data|
    ensures Averages(Chunks(data[i..], step))
         == [ChunkAverage(data[i..Min(i + step, |data|)])] + Averages(Chunks(data[Min(i + step, |data|)..], step))
  {
    var end := Min(i + step, |data|);
    var chunk := data[i..end];
    var rest := Chunks(data[end..], step);
    assert data[i..][..Min(step, |data| - i)] == chunk;
    assert data[i..][Min(step, |data| - i)..] == data[end..];
    assert Chunks(data[i..], step) == [chunk] + rest;
    AveragesCons(chunk, rest);
  }

  lemma AveragesCons(c: seq<HistoricalSensorData>, rest: seq<seq<HistoricalSensorData>>)
    requires c != [] && forall k :: 0 <= k < |rest| ==> rest[k] != []
    ensures Averages([c] + rest) == [ChunkAverage(c)] + Averages(rest)
  {
    assert ([c] + rest)[1..] == rest;
  }

  // ===== Properties of downsampling =====

  /** A series that already fits is returned unchanged. */
  lemma ShortSeriesUnchanged(data: seq<HistoricalSensorData>, maxPoints: nat)
    requires maxPoints > 0 && |data| <= maxPoints
    ensures Downsample(data, maxPoints) == data
  {
  }

  /** `ceil(n / ceil(n / m)) <= m`: the output never exceeds `maxPoints`. */
  lemma {:induction false} CeilOfCeilBound(n: nat, m: nat)
    requires m > 0 && n > m
    ensures Step(n, m) > 0
    ensures CeilDiv(n, Step(n, m)) <= m
  {
    var s := Step(n, m);
    CeilDivBounds(n, m);
    CeilDivBounds(n, s);
    var q := CeilDiv(n, s);
    // (q - 1) * s < n <= m * s, so q - 1 < m.
    assert s * m == m * s;
    MulCancelLess(s, q - 1, m);
  }

  /** `ceil(n / d)` is the least q with q * d >= n. */
  lemma CeilDivBounds(n: nat, d: nat)
    requires d > 0
    ensures CeilDiv(n, d) * d >= n
    ensures (CeilDiv(n, d) - 1) * d < n || n == 0
    ensures n > 0 ==> CeilDiv(n, d) > 0
  {
    var q := (n + d - 1) / d;
    var r := (n + d - 1) % d;
    assert n + d - 1 == d * q + r;
    assert q * d == d * q;
    assert (q - 1) * d == d * q - d;
  }

  /** A long series is cut into `ceil(n / step)` chunks, at most `maxPoints` of them. */
  lemma DownsampleLength(data: seq<HistoricalSensorData>, maxPoints: nat)
    requires maxPoints > 0
    ensures |Downsample(data, maxPoints)| <= maxPoints
    ensures |data| > maxPoints ==>
      Step(|data|, maxPoints) > 0 &&
      |Downsample(data, maxPoints)| == CeilDiv(|data|, Step(|data|, maxPoints))
  {
    if |data| > maxPoints {
      CeilOfCeilBound(|data|, maxPoints);
      ChunksCover(data, Step(|data|, maxPoints));
    }
  }

  /** Chunk k is `data[k * step .. min((k + 1) * step, n)]`. */
  lemma {:induction false} ChunkAt(data: seq<HistoricalSensorData>, step: nat, k: nat)
    requires step > 0 && k < |Chunks(data, step)|
    ensures k * step < |data|
    ensures Chunks(data, step)[k] == data[k * step .. Min((k + 1) * step, |data|)]
    decreases k
  {
    var cs := Chunks(data, step);
    var c := Min(step, |data|);
    assert cs == [data[..c]] + Chunks(data[c..], step);
    if k > 0 {
      assert data[c..] != [];
      assert c == step;
      ChunkAt(data[c..], step, k - 1);
      var lo := (k - 1) * step;
      var hi := Min(k * step, |data| - step);
      assert lo + step == k * step;
      assert hi + step == Min((k + 1) * step, |data|);
      assert cs[k] == Chunks(data[c..], step)[k - 1];
      SliceOfSuffix(data, step, lo, hi);
    }
  }

  lemma SliceOfSuffix(s: seq<HistoricalSensorData>, c: nat, lo: nat, hi: nat)
    requires c <= |s| && lo <= hi <= |s| - c
    ensures s[c..][lo..hi] == s[c + lo .. c + hi]
  {
  }

  /** The chunks are consecutive and do not overlap: chunk k + 1 starts where chunk k ends. */
  lemma ChunksConsecutive(data: seq<HistoricalSensorData>, step: nat, k: nat)
    requires step > 0 && k + 1 < |Chunks(data, step)|
    ensures (k + 1) * step < |data|
    ensures |Chunks(data, step)[k]| == step
    ensures Chunks(data, step)[k] == data[k * step .. (k + 1) * step]
    ensures Chunks(data, step)[k + 1] == data[(k + 1) * step .. Min((k + 2) * step, |data|)]
  {
    ChunkAt(data, step, k);
    ChunkAt(data, step, k + 1);
    assert (k + 1) * step + step == (k + 2) * step;
  }

  /** The index in `data` of the middle reading of chunk `k`. */
  function MiddleIndex(n: nat, step: nat, k: nat): int {
    k * step + (Min((k + 1) * step, n) - k * step) / 2
  }

  /** The middle reading of chunk k sits at `MiddleIndex`, inside that chunk's range of `data`. */
  lemma MiddleOfChunk(data: seq<HistoricalSensorData>, step: nat, k: nat)
    requires step > 0 && k < |Chunks(data, step)|
    ensures k * step <= MiddleIndex(|data|, step, k) < Min((k + 1) * step, |data|)
    ensures 0 <= MiddleIndex(|data|, step, k) < |data|
    ensures var c := Chunks(data, step)[k]; c[|c| / 2] == data[MiddleIndex(|data|, step, k)]
  {
    ChunkAt(data, step, k);
    MulMonotone(step, 0, k);
    assert k * step == step * k;
  }

  /** Output point k carries the timestamp of the middle reading of chunk k. */
  lemma AverageTimestampAt(data: seq<HistoricalSensorData>, step: nat, k: nat)
    requires step > 0 && k < |Chunks(data, step)|
    ensures 0 <= MiddleIndex(|data|, step, k) < |data|
    ensures Averages(Chunks(data, step))[k].timestamp == data[MiddleIndex(|data|, step, k)].timestamp
  {
    MiddleOfChunk(data, step, k);
    var c := Chunks(data, step)[k];
    assert Averages(Chunks(data, step))[k].timestamp == c[|c| / 2].timestamp;
  }

  /** Ascending input gives ascending output: chunk a lies wholly before chunk b when a < b. */
  lemma AveragesAscending(data: seq<HistoricalSensorData>, step: nat)
    requires step > 0 && Ascending(data)
    ensures Ascending(Averages(Chunks(data, step)))
  {
    var out := Averages(Chunks(data, step));
    forall a, b | 0 <= a < b < |out| ensures out[a].timestamp <= out[b].timestamp {
      AverageTimestampAt(data, step, a);
      AverageTimestampAt(data, step, b);
      MiddleOfChunk(data, step, a);
      MiddleOfChunk(data, step, b);
      MulMonotone(step, a + 1, b);
      assert (a + 1) * step == step * (a + 1) && b * step == step * b;
    }
  }

  /** The timestamps of a series, in order. */
  function TimestampsOf(data: seq<HistoricalSensorData>): (r: seq<int>)
    ensures |r| == |data| && forall i :: 0 <= i < |data| ==> r[i] == data[i].timestamp
  {
    if data == [] then [] else [data[0].timestamp] + TimestampsOf(data[1..])
  }

  /** Every timestamp of `out` is the timestamp of some reading of `data`. */
  predicate TimestampsFrom(out: seq<HistoricalSensorData>, data: seq<HistoricalSensorData>) {
    forall k :: 0 <= k < |out| ==> out[k].timestamp in TimestampsOf(data)
  }

  /** The downsampled series takes its timestamps from the input and keeps it ascending. */
  lemma DownsampledTimestamps(data: seq<HistoricalSensorData>, maxPoints: nat)
    requires maxPoints > 0
    ensures TimestampsFrom(Downsample(data, maxPoints), data)
    ensures Ascending(data) ==> Ascending(Downsample(data, maxPoints))
  {
    TimestampsFromInput(data, maxPoints);
    if Ascending(data) {
      DownsampleKeepsAscending(data, maxPoints);
    }
  }

  lemma TimestampsFromInput(data: seq<HistoricalSensorData>, maxPoints: nat)
    requires maxPoints > 0
    ensures TimestampsFrom(Downsample(data, maxPoints), data)
  {
    var out := Downsample(data, maxPoints);
    var ts := TimestampsOf(data);
    forall k | 0 <= k < |out| ensures out[k].timestamp in ts {
      var i := TimestampSource(data, maxPoints, k);
      assert ts[i] == out[k].timestamp;
    }
  }

  /** The input position whose timestamp output point k carries. */
  lemma TimestampSource(data: seq<HistoricalSensorData>, maxPoints: nat, k: nat) returns (i: nat)
    requires maxPoints > 0 && k < |Downsample(data, maxPoints)|
    ensures i < |data| && Downsample(data, maxPoints)[k].timestamp == data[i].timestamp
  {
    if |data| > maxPoints {
      var step := Step(|data|, maxPoints);
      CeilOfCeilBound(|data|, maxPoints);
      AverageTimestampAt(data, step, k);
      i := MiddleIndex(|data|, step, k);
    } else {
      i := k;
    }
  }

  lemma DownsampleKeepsAscending(data: seq<HistoricalSensorData>, maxPoints: nat)
    requires maxPoints > 0 && Ascending(data)
    ensures Ascending(Downsample(data, maxPoints))
  {
    if |data| > maxPoints {
      var step := Step(|data|, maxPoints);
      CeilOfCeilBound(|data|, maxPoints);
      AveragesAscending(data, step);
    }
  }

  /** Each output point averages its own chunk, dividing by that chunk's own length. */
  lemma DownsampledPointAverages(data: seq<HistoricalSensorData>, maxPoints: nat, k: nat)
    requires maxPoints > 0 && |data| > maxPoints
    requires k < |Downsample(data, maxPoints)|
    ensures var step := Step(|data|, maxPoints);
      step > 0 && k * step < |data| &&
      var chunk := data[k * step .. Min((k + 1) * step, |data|)];
      chunk != [] && Downsample(data, maxPoints)[k] == ChunkAverage(chunk)
  {
    var step := Step(|data|, maxPoints);
    CeilOfCeilBound(|data|, maxPoints);
    ChunkAt(data, step, k);
  }

  /** Percent channels in [lo, hi] for every reading of a non-empty chunk have a mean in [lo, hi]. */
  lemma {:induction false} SumBounds(chunk: seq<HistoricalSensorData>, c: Channel, lo: real, hi: real)
    requires forall k :: 0 <= k < |chunk| ==> lo <= ChannelValue(chunk[k], c) <= hi
    ensures (|chunk| as real) * lo <= ChannelSum(chunk, c) <= (|chunk| as real) * hi
  {
    if chunk != [] {
      SumBounds(chunk[..|chunk| - 1], c, lo, hi);
    }
  }

  predicate PercentChannels(r: HistoricalSensorData) {
    WellFormed(r)
    && (forall j :: 0 <= j < 4 ==> IsPercent(r.plantMoisture[j]))
    && IsPercent(r.humidity) && IsPercent(r.waterLevel)
  }

  /** Averaging keeps the percent channels in [0, 100]. */
  lemma ChunkAverageInRange(chunk: seq<HistoricalSensorData>)
    requires chunk != []
    requires forall k :: 0 <= k < |chunk| ==> PercentChannels(chunk[k])
    ensures PercentChannels(ChunkAverage(chunk))
  {
    var n := |chunk| as real;
    var avg := ChunkAverage(chunk);
    forall c: Channel | (c.Moisture? && c.j < 4) || c == Humidity || c == WaterLevel
      ensures 0.0 <= Mean(chunk, c) <= 100.0
    {
      SumBounds(chunk, c, 0.0, 100.0);
      assert 0.0 <= ChannelSum(chunk, c) <= n * 100.0;
      DivBounds(ChannelSum(chunk, c), n);
    }
    forall j | 0 <= j < 4 ensures IsPercent(avg.plantMoisture[j]) {
      RoundWithin(Mean(chunk, Moisture(j)), 0, 100);
    }
    RoundWithin(Mean(chunk, Humidity), 0, 100);
    RoundWithin(Mean(chunk, WaterLevel), 0, 100);
  }

  lemma DivBounds(s: real, n: real)
    requires n > 0.0 && 0.0 <= s <= n * 100.0
    ensures 0.0 <= s / n <= 100.0
  {
  }

  /** Downsampling keeps valid percentages valid. */
  lemma DownsampleInRange(data: seq<HistoricalSensorData>, maxPoints: nat)
    requires maxPoints > 0
    requires forall k :: 0 <= k < |data| ==> PercentChannels(data[k])
    ensures var out := Downsample(data, maxPoints);
      forall k :: 0 <= k < |out| ==> PercentChannels(out[k])
  {
    if |data| > maxPoints {
      var step := Step(|data|, maxPoints);
      CeilOfCeilBound(|data|, maxPoints);
      var cs := Chunks(data, step);
      forall k | 0 <= k < |cs| ensures PercentChannels(Averages(cs)[k]) {
        ChunkInRange(data, step, k);
      }
    }
  }

  lemma ChunkInRange(data: seq<HistoricalSensorData>, step: nat, k: nat)
    requires step > 0 && k < |Chunks(data, step)|
    requires forall t :: 0 <= t < |data| ==> PercentChannels(data[t])
    ensures PercentChannels(ChunkAverage(Chunks(data, step)[k]))
  {
    ChunkAt(data, step, k);
    var lo, hi := k * step, Min((k + 1) * step, |data|);
    SlicePercent(data, lo, hi);
    ChunkAverageInRange(data[lo..hi]);
  }

  lemma SlicePercent(data: seq<HistoricalSensorData>, lo: nat, hi: nat)
    requires lo <= hi <= |data|
    requires forall t :: 0 <= t < |data| ==> PercentChannels(data[t])
    ensures forall t :: 0 <= t < hi - lo ==> PercentChannels(data[lo..hi][t])
  {
    forall t | 0 <= t < hi - lo ensures PercentChannels(data[lo..hi][t]) {
      assert data[lo..hi][t] == data[lo + t];
    }
  }

  /** The worked example: a chunk with moisture 40 and 60 averages to 50. */
  lemma TwoReadingChunk(a: HistoricalSensorData, b: HistoricalSensorData)
    requires a.plantMoisture == [40.0, 0.0, 0.0, 0.0] && b.plantMoisture == [60.0, 0.0, 0.0, 0.0]
    ensures ChunkAverage([a, b]).plantMoisture[0] == 50.0
    ensures ChunkAverage([a, b]).timestamp == b.timestamp
  {
    assert [a, b][..1] == [a];
    assert [a][..0] == [];
    assert ChannelSum([a], Moisture(0)) == 40.0;
    assert ChannelSum([a, b], Moisture(0)) == 100.0;
    assert Mean([a, b], Moisture(0)) == 50.0;
  }

  /** 240 readings (20 hours every five minutes) reduced to 100 points give 80 chunks of 3. */
  lemma TwentyHourScenario(data: seq<HistoricalSensorData>)
    requires |data| == 240
    ensures Step(|data|, 100) == 3
    ensures |Downsample(data, 100)| == 80
  {
    assert Step(240, 100) == 3;
    assert CeilDiv(240, 3) == 80;
    DownsampleLength(data, 100);
  }
}
