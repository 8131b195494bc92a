/** `public/dataWorker.js`: the worker's message dispatch and the four computations behind it. */
module DataWorker {
  import opened Wrappers
  import opened Seqs
  import opened Text
  import opened Types
  import opened Sampling
  import opened EarthquakeTable
  import opened EarthquakeChart

  // ---------------------------------------------------------------------------------
  // filterData

  /** The worker's row test. Unlike the table's, the magnitude clause is guarded by the
      truthiness of `mag`, so a magnitude of 0 never matches through its rendering. */
  predicate WorkerMatches(ops: TextOps, q: Quake, needle: string)
  {
    || Includes(Lower(ops, q.place), needle)
    || Includes(Lower(ops, q.id), needle)
    || (q.mag.Num? && q.mag.n != 0.0 && Includes(ops.showNumber(q.mag.n), needle))
  }

  function WorkerTest(ops: TextOps, needle: string): Quake -> bool
  {
    q => WorkerMatches(ops, q, needle)
  }

  /** `filterData`: a missing, empty or all-whitespace term returns the data as it is;
      otherwise exactly the matching rows, in order. */
  function FilterData(ops: TextOps, data: seq<Quake>, searchTerm: Option<string>): (filtered: seq<Quake>)
    ensures searchTerm.None? || IsBlank(searchTerm.value) ==> filtered == data
    ensures searchTerm.Some? && !IsBlank(searchTerm.value) ==>
      forall q :: q in filtered <==> q in data && WorkerMatches(ops, q, Lower(ops, searchTerm.value))
    ensures IsSubsequence(filtered, data)
  {
    if searchTerm.None? || IsBlank(searchTerm.value) then
      SubsequenceReflexive(data);
      data
    else
      var needle := Lower(ops, searchTerm.value);
      KeepIsSubsequence(data, WorkerTest(ops, needle));
      Keep(data, WorkerTest(ops, needle))
  }

  /** The worker's filter is decided record by record: filtering `a + b` is filtering `a`,
      then `b`. */
  lemma FilterDataBlockwise(ops: TextOps, a: seq<Quake>, b: seq<Quake>, searchTerm: Option<string>)
    ensures FilterData(ops, a + b, searchTerm) == FilterData(ops, a, searchTerm) + FilterData(ops, b, searchTerm)
  {
    if searchTerm.Some? && !IsBlank(searchTerm.value) {
      KeepAppend(a, b, WorkerTest(ops, Lower(ops, searchTerm.value)));
    }
  }

  /** The two copies of the row test agree except on a record whose magnitude is exactly 0,
      which the worker can match only through its place or id. */
  lemma WorkerAndTableMatches(ops: TextOps, q: Quake, needle: string)
    ensures q.mag != Num(0.0) ==> (WorkerMatches(ops, q, needle) <==> TableMatches(ops, q, needle))
    ensures q.mag == Num(0.0) ==>
      (WorkerMatches(ops, q, needle) <==>
        Includes(Lower(ops, q.place), needle) || Includes(Lower(ops, q.id), needle))
  {
  }

  /** An instance of the difference: with `0` rendered as "0", the search "0" finds a
      magnitude-0 record in the table but not in the worker. */
  lemma ZeroMagnitudeFoundOnlyByTable(ops: TextOps)
    requires ops.showNumber(0.0) == "0" && ops.lowerChar('0') == '0'
    ensures var q := Quake("", "", Num(0.0), Null, Null, Null, Null, Null, Null, Null, Null, Null);
      TableMatches(ops, q, Lower(ops, "0")) && !WorkerMatches(ops, q, Lower(ops, "0"))
  {
    assert Lower(ops, "0") == "0";
    assert OccursAt("0", "0", 0);
  }

  /** Given the same term, the worker keeps a subsequence of what the table keeps, and the
      same rows when no record has magnitude 0. */
  lemma WorkerFilterWithinTableFilter(ops: TextOps, data: seq<Quake>, term: string)
    ensures IsSubsequence(FilterData(ops, data, Some(term)), FilteredData(ops, data, term))
    ensures (forall q :: q in data ==> q.mag != Num(0.0)) ==>
      FilterData(ops, data, Some(term)) == FilteredData(ops, data, term)
  {
    if IsBlank(term) {
      SubsequenceReflexive(data);
    } else {
      var needle := Lower(ops, term);
      var table := q => TableMatches(ops, q, needle);
      assert FilteredData(ops, data, term) == Keep(data, table);
      forall q | q in data ensures WorkerTest(ops, needle)(q) ==> table(q) {
        WorkerAndTableMatches(ops, q, needle);
      }
      KeepStronger(data, WorkerTest(ops, needle), table);
      if forall q :: q in data ==> q.mag != Num(0.0) {
        forall q | q in data ensures WorkerTest(ops, needle)(q) <==> table(q) {
          WorkerAndTableMatches(ops, q, needle);
        }
        KeepCongruent(data, WorkerTest(ops, needle), table);
      }
    }
  }

  // ---------------------------------------------------------------------------------
  // sampleChartData

  /** The default parameter `maxPoints = 2000`. */
  function MaxPoints(sampleSize: Option<nat>): nat
  {
    match sampleSize
    case None => 2000
    case Some(m) => m
  }

  /** The stride `Math.ceil(n / maxPoints)`; for `maxPoints` 0 JavaScript's stride is
      `Infinity`, which takes the first record only, as a stride of `n` does. */
  function SampleRate(n: nat, maxPoints: nat): (rate: nat)
    requires n > maxPoints
    ensures rate > 0
  {
    if maxPoints == 0 then n else CeilDiv(n, maxPoints)
  }

  /** What `sampleChartData` returns. */
  function WorkerSample(data: seq<Quake>, sampleSize: Option<nat>): seq<Quake>
  {
    var m := MaxPoints(sampleSize);
    if |data| <= m then data else Strided(data, SampleRate(|data|, m))
  }

  /** `sampleChartData`: the data itself when it fits, otherwise the strided run, which
      then has at most `maxPoints` records (at most one when `maxPoints` is 0). */
  method SampleChartData(data: seq<Quake>, sampleSize: Option<nat>) returns (sampled: seq<Quake>)
    ensures sampled == WorkerSample(data, sampleSize)
    ensures |data| <= MaxPoints(sampleSize) ==> sampled == data
    ensures |data| > MaxPoints(sampleSize) ==>
      |sampled| <= Max(MaxPoints(sampleSize), 1) && sampled[0] == data[0]
  {
    var maxPoints := MaxPoints(sampleSize);
    if |data| <= maxPoints {
      return data;
    }
    var sampleRate := SampleRate(|data|, maxPoints);
    sampled := TakeEvery(data, sampleRate);
    if maxPoints > 0 {
      StridedWithinBudget(data, maxPoints);
    } else {
      CeilDivUnique(|data|, sampleRate, 1);
    }
    assert 0 * sampleRate == 0;
  }

  // ---------------------------------------------------------------------------------
  // processChartData

  /** The worker's test: both coordinates are neither `null` nor `undefined`. */
  predicate PlottedByWorker(q: Quake, xAxis: Axis, yAxis: Axis)
  {
    Field(q, xAxis).Num? && Field(q, yAxis).Num?
  }

  function ProcessTest(xAxis: Axis, yAxis: Axis): Quake -> bool
  {
    q => PlottedByWorker(q, xAxis, yAxis)
  }

  /** `processChartData`: the records whose two chosen fields are numbers, in order, each
      carrying those fields as its coordinates. */
  function ProcessChartData(data: seq<Quake>, xAxis: Axis, yAxis: Axis): (points: seq<ChartPoint>)
    ensures QuakesOf(points) == Keep(data, ProcessTest(xAxis, yAxis))
    ensures forall p :: p in points ==>
      p.x == Field(p.quake, xAxis) && p.y == Field(p.quake, yAxis) && p.x.Num? && p.y.Num?
  {
    var f := q => Project(q, xAxis, yAxis);
    var keep := (p: ChartPoint) => p.x.Num? && p.y.Num?;
    var points := Keep(Map(data, f), keep);
    KeepMap(data, f, keep);
    KeepCongruent(data, Through(f, keep), ProcessTest(xAxis, yAxis));
    QuakesOfProjection(Keep(data, ProcessTest(xAxis, yAxis)), f);
    points
  }

  /** The worker drops what the chart drops and also `undefined` coordinates; on records
      without `undefined` chosen fields the two projections coincide. */
  lemma ProcessWithinChartData(data: seq<Quake>, xAxis: Axis, yAxis: Axis)
    ensures IsSubsequence(QuakesOf(ProcessChartData(data, xAxis, yAxis)), QuakesOf(ChartData(data, xAxis, yAxis)))
    ensures (forall q :: q in data ==> Field(q, xAxis) != Undefined && Field(q, yAxis) != Undefined) ==>
      QuakesOf(ProcessChartData(data, xAxis, yAxis)) == QuakesOf(ChartData(data, xAxis, yAxis))
  {
    var worker, chart := ProcessTest(xAxis, yAxis), PlottedTest(xAxis, yAxis);
    WorkerTestStronger(xAxis, yAxis);
    KeepStronger(data, worker, chart);
    if forall q :: q in data ==> Field(q, xAxis) != Undefined && Field(q, yAxis) != Undefined {
      forall q | q in data
        ensures worker(q) <==> chart(q)
      {
        TestsAgreeWithoutUndefined(q, xAxis, yAxis);
      }
      KeepCongruent(data, worker, chart);
    }
  }

  lemma WorkerTestStronger(xAxis: Axis, yAxis: Axis)
    ensures forall q :: ProcessTest(xAxis, yAxis)(q) ==> PlottedTest(xAxis, yAxis)(q)
  {
  }

  lemma TestsAgreeWithoutUndefined(q: Quake, xAxis: Axis, yAxis: Axis)
    requires Field(q, xAxis) != Undefined && Field(q, yAxis) != Undefined
    ensures ProcessTest(xAxis, yAxis)(q) <==> PlottedTest(xAxis, yAxis)(q)
  {
  }

  // ---------------------------------------------------------------------------------
  // calculateStatistics

  /** What one record adds to the values of a field: its value when the field holds a number. */
  function Contribution(axis: Axis): Quake -> seq<real>
  {
    q => if Field(q, axis).Num? then [Field(q, axis).n] else []
  }

  /** `data.map(item => item[axis]).filter(v => v !== null && v !== undefined)`. */
  function Present(data: seq<Quake>, axis: Axis): (values: seq<real>)
    ensures |values| <= |data|
  {
    if data == [] then [] else Contribution(axis)(data[0]) + Present(data[1..], axis)
  }

  /** The values of a field are exactly the numbers that some record holds in it. */
  lemma {:induction false} PresentMembers(data: seq<Quake>, axis: Axis)
    ensures forall v :: v in Present(data, axis) <==> exists q :: q in data && Field(q, axis) == Num(v)
  {
    if data != [] {
      PresentMembers(data[1..], axis);
      assert forall q :: q in data <==> q == data[0] || q in data[1..];
    }
  }

  /** `Present` is the records' contributions laid end to end, in order. */
  lemma {:induction false} PresentIsFlatMap(data: seq<Quake>, axis: Axis)
    ensures Present(data, axis) == FlatMap(data, Contribution(axis))
  {
    if data != [] {
      PresentIsFlatMap(data[1..], axis);
    }
  }

  /** A single record contributes its value when the field holds a number, and nothing otherwise. */
  lemma PresentOneRecord(q: Quake, axis: Axis)
    ensures Present([q], axis) == if Field(q, axis).Num? then [Field(q, axis).n] else []
  {
    assert [q][1..] == [];
  }

  /** `Present` is decided record by record: the values of `a + b` are those of `a`
      followed by those of `b`; with `PresentOneRecord` this fixes every occurrence, in order. */
  lemma PresentBlockwise(a: seq<Quake>, b: seq<Quake>, axis: Axis)
    ensures Present(a + b, axis) == Present(a, axis) + Present(b, axis)
  {
    PresentIsFlatMap(a + b, axis);
    PresentIsFlatMap(a, axis);
    PresentIsFlatMap(b, axis);
    FlatMapAppend(a, b, Contribution(axis));
  }

  /** `values.reduce((sum, v) => sum + v, 0)`, a left fold. */
  function Sum(values: seq<real>): real
  {
    if values == [] then 0.0 else Sum(values[..|values| - 1]) + values[|values| - 1]
  }

  /** `Math.max(...values)` on a non-empty list. */
  function MaxOf(values: seq<real>): (m: real)
    requires values != []
    ensures m in values && forall v :: v in values ==> v <= m
  {
    if |values| == 1 then values[0]
    else
      var rest := MaxOf(values[1..]);
      assert forall v :: v in values <==> v == values[0] || v in values[1..];
      if values[0] >= rest then values[0] else rest
  }

  /** `Math.min(...values)` on a non-empty list. */
  function MinOf(values: seq<real>): (m: real)
    requires values != []
    ensures m in values && forall v :: v in values ==> m <= v
  {
    if |values| == 1 then values[0]
    else
      var rest := MinOf(values[1..]);
      assert forall v :: v in values <==> v == values[0] || v in values[1..];
      if values[0] <= rest then values[0] else rest
  }

  /** `x` added to itself `k` times, keeping the bounds on a sum linear. */
  function Times(k: nat, x: real): real
  {
    if k == 0 then 0.0 else Times(k - 1, x) + x
  }

  lemma {:induction false} TimesIsProduct(k: nat, x: real)
    ensures Times(k, x) == k as real * x
  {
    if k > 0 {
      TimesIsProduct(k - 1, x);
    }
  }

  /** A sum of values lying in `[lo, hi]` lies between `n` times `lo` and `n` times `hi`. */
  lemma {:induction false} SumBetween(values: seq<real>, lo: real, hi: real)
    requires forall v :: v in values ==> lo <= v <= hi
    ensures Times(|values|, lo) <= Sum(values) <= Times(|values|, hi)
  {
    if values != [] {
      var init := values[..|values| - 1];
      assert forall v :: v in init ==> v in values;
      SumBetween(init, lo, hi);
      assert values[|values| - 1] in values;
    }
  }

  /** Dividing a sum bounded by `k` times `lo` and `k` times `hi` by `k` gives a value between them. */
  lemma MeanBetween(k: nat, sum: real, lo: real, hi: real)
    requires k > 0 && Times(k, lo) <= sum <= Times(k, hi)
    ensures lo <= sum / k as real <= hi
  {
    TimesIsProduct(k, lo);
    TimesIsProduct(k, hi);
    var n := k as real;
    var avg := sum / n;
    assert avg * n == sum;
    assert (avg - lo) * n >= 0.0;
    assert (hi - avg) * n >= 0.0;
  }

  /** The mean of a non-empty list lies between its least and its greatest value. */
  lemma AverageOfValues(values: seq<real>)
    requires values != []
    ensures MinOf(values) <= Sum(values) / |values| as real <= MaxOf(values)
  {
    SumBetween(values, MinOf(values), MaxOf(values));
    MeanBetween(|values|, Sum(values), MinOf(values), MaxOf(values));
  }

  /** The average, maximum and minimum of one field; JavaScript's `NaN`, `-Infinity` and
      `Infinity` for a field without values are `NoValues` here. */
  datatype FieldSummary = Summary(avg: real, max: real, min: real) | NoValues

  /** The summary of a field: none exactly when there are no values; otherwise the average
      of the values, lying between their minimum and maximum, both of which are values. */
  function Summarize(values: seq<real>): (r: FieldSummary)
    ensures r.NoValues? <==> values == []
    ensures r.Summary? ==>
      && r.avg == Sum(values) / |values| as real
      && r.min in values && r.max in values
      && (forall v :: v in values ==> r.min <= v <= r.max)
      && r.min <= r.avg <= r.max
  {
    if values == [] then NoValues
    else
      AverageOfValues(values);
      Summary(Sum(values) / |values| as real, MaxOf(values), MinOf(values))
  }

  datatype Statistics = Statistics(count: nat, magnitude: FieldSummary, depth: FieldSummary)

  /** `calculateStatistics`: nothing for missing or empty data; otherwise the number of
      records (those with null fields included) and the summaries of the magnitudes and
      depths that are present. */
  function CalculateStatistics(data: Option<seq<Quake>>): (r: Option<Statistics>)
    ensures r.None? <==> data.None? || data.value == []
    ensures r.Some? ==>
      && r.value.count == |data.value|
      && r.value.magnitude == Summarize(Present(data.value, Mag))
      && r.value.depth == Summarize(Present(data.value, Depth))
  {
    match data
    case None => None
    case Some(records) =>
      if records == [] then None
      else Some(Statistics(|records|, Summarize(Present(records, Mag)), Summarize(Present(records, Depth))))
  }

  /** Two records, magnitudes 3 and 5, depths null and 10: mean magnitude 4, and the depth
      summary is taken over the one depth present. */
  lemma StatisticsExample()
    ensures var a := Quake("a", "", Num(3.0), Null, Null, Null, Null, Null, Null, Null, Null, Null);
            var b := Quake("b", "", Num(5.0), Num(10.0), Null, Null, Null, Null, Null, Null, Null, Null);
            CalculateStatistics(Some([a, b]))
              == Some(Statistics(2, Summary(4.0, 5.0, 3.0), Summary(10.0, 10.0, 10.0)))
  {
    var a := Quake("a", "", Num(3.0), Null, Null, Null, Null, Null, Null, Null, Null, Null);
    var b := Quake("b", "", Num(5.0), Num(10.0), Null, Null, Null, Null, Null, Null, Null, Null);
    ExamplePresent(a, b);
    ExampleSummaries();
  }

  lemma ExamplePresent(a: Quake, b: Quake)
    requires a.mag == Num(3.0) && a.depth == Null && b.mag == Num(5.0) && b.depth == Num(10.0)
    ensures Present([a, b], Mag) == [3.0, 5.0] && Present([a, b], Depth) == [10.0]
  {
    assert [a, b] == [a] + [b];
    PresentBlockwise([a], [b], Mag);
    PresentBlockwise([a], [b], Depth);
    PresentOneRecord(a, Mag);
    PresentOneRecord(b, Mag);
    PresentOneRecord(a, Depth);
    PresentOneRecord(b, Depth);
  }

  lemma ExampleSummaries()
    ensures Summarize([3.0, 5.0]) == Summary(4.0, 5.0, 3.0)
    ensures Summarize([10.0]) == Summary(10.0, 10.0, 10.0)
  {
    assert Sum([3.0, 5.0]) == 8.0 by {
      assert [3.0, 5.0][..1] == [3.0];
      assert Sum([3.0]) == 3.0 by { assert [3.0][..0] == []; }
    }
    assert Sum([10.0]) == 10.0 by { assert [10.0][..0] == []; }
    assert MaxOf([3.0, 5.0]) == 5.0 && MinOf([3.0, 5.0]) == 3.0 by {
      assert [3.0, 5.0][1..] == [5.0];
    }
  }

  // ---------------------------------------------------------------------------------
  // onmessage

  /** The fields of `e.data` the worker reads. */
  datatype WorkerMessage = WorkerMessage(
    kind: string, data: seq<Quake>, searchTerm: Option<string>,
    sampleSize: Option<nat>, xAxis: Axis, yAxis: Axis)

  datatype Payload = Records(records: seq<Quake>) | Points(points: seq<ChartPoint>)

  /** A message posted back: its `type` tag and its `data`. */
  datatype WorkerReply = WorkerReply(kind: string, payload: Payload)

  /** `self.onmessage`: each of the three request types posts exactly one reply with its
      completion tag; any other type posts nothing. */
  method OnMessage(ops: TextOps, message: WorkerMessage) returns (posted: Option<WorkerReply>)
    ensures message.kind == "FILTER_DATA" ==>
      posted == Some(WorkerReply("FILTER_COMPLETE", Records(FilterData(ops, message.data, message.searchTerm))))
    ensures message.kind == "SAMPLE_CHART_DATA" ==>
      posted == Some(WorkerReply("SAMPLE_COMPLETE", Records(WorkerSample(message.data, message.sampleSize))))
    ensures message.kind == "PROCESS_CHART_DATA" ==>
      posted == Some(WorkerReply("PROCESS_COMPLETE",
        Points(ProcessChartData(message.data, message.xAxis, message.yAxis))))
    ensures posted.None? <==>
      message.kind != "FILTER_DATA" && message.kind != "SAMPLE_CHART_DATA" && message.kind != "PROCESS_CHART_DATA"
  {
    match message.kind
    case "FILTER_DATA" =>
      var filteredResults := FilterData(ops, message.data, message.searchTerm);
      posted := Some(WorkerReply("FILTER_COMPLETE", Records(filteredResults)));
    case "SAMPLE_CHART_DATA" =>
      var sampledResults := SampleChartData(message.data, message.sampleSize);
      posted := Some(WorkerReply("SAMPLE_COMPLETE", Records(sampledResults)));
    case "PROCESS_CHART_DATA" =>
      var processedResults := ProcessChartData(message.data, message.xAxis, message.yAxis);
      posted := Some(WorkerReply("PROCESS_COMPLETE", Points(processedResults)));
    case _ =>
      posted := None;
  }
}
