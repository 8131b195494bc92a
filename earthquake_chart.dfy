/** `src/components/Chart/EarthquakeChart.tsx`: downsampling with pinned records, the
    projection onto the chosen axes, and the dots' emphasis and event handlers. */
module EarthquakeChart {
  import opened Wrappers
  import opened Seqs
  import opened Types
  import opened Sampling
  import opened EarthquakeContext

  const MaxChartPoints: nat := 2000

  // ---------------------------------------------------------------------------------
  // Sampling

  /** A JavaScript truthiness test on an id: present and not the empty string. */
  predicate Truthy(id: Option<string>)
  {
    id.Some? && id.value != ""
  }

  /** `s.some(item => item.id === id)`. */
  predicate HasId(s: seq<Quake>, id: string)
  {
    exists q :: q in s && q.id == id
  }

  /** `data.find(item => item.id === id)`: the first record with that id, if any. */
  function FindById(data: seq<Quake>, id: string): (found: Option<Quake>)
    ensures found.Some? <==> HasId(data, id)
    ensures found.Some? ==>
      && found.value.id == id
      && exists k :: 0 <= k < |data| && data[k] == found.value && forall j :: 0 <= j < k ==> data[j].id != id
  {
    if data == [] then None
    else if data[0].id == id then Some(data[0])
    else
      var rest := FindById(data[1..], id);
      assert forall q :: q in data <==> q == data[0] || q in data[1..];
      assert rest.Some? ==> forall k :: 0 <= k < |data| - 1 ==> data[1..][k] == data[k + 1];
      rest
  }

  /** One pinning step: a truthy id naming a record of `data` that the sample lacks
      appends that record; anything else leaves the sample alone. */
  function PinRecord(sampled: seq<Quake>, data: seq<Quake>, id: Option<string>): (r: seq<Quake>)
    ensures r == sampled || (
      && Truthy(id) && HasId(data, id.value) && !HasId(sampled, id.value)
      && |r| == |sampled| + 1 && r[..|sampled|] == sampled
      && r[|sampled|] in data && r[|sampled|].id == id.value)
    ensures Truthy(id) && HasId(data, id.value) ==> HasId(r, id.value)
  {
    if Truthy(id) then
      match FindById(data, id.value)
      case Some(item) =>
        if HasId(sampled, id.value) then sampled
        else
          assert (sampled + [item])[|sampled|] == item;
          sampled + [item]
      case None => sampled
    else sampled
  }

  /** Whether the hovered id is pinned too: it is truthy and differs from the selected id. */
  predicate PinsHovered(selection: SelectionState)
  {
    Truthy(selection.hoveredId) && selection.hoveredId != selection.selectedId
  }

  /** The value of the `sampledData` memo. */
  function SampledData(data: seq<Quake>, selection: SelectionState): seq<Quake>
  {
    if |data| <= MaxChartPoints then data
    else
      var run := Strided(data, CeilDiv(|data|, MaxChartPoints));
      var withSelected := PinRecord(run, data, selection.selectedId);
      if PinsHovered(selection) then PinRecord(withSelected, data, selection.hoveredId)
      else withSelected
  }

  /** The `sampledData` memo: the stride loop, then the selected and hovered records. */
  method SampleForChart(data: seq<Quake>, selection: SelectionState) returns (sampled: seq<Quake>)
    ensures sampled == SampledData(data, selection)
  {
    if |data| <= MaxChartPoints {
      return data;
    }
    var sampleRate := CeilDiv(|data|, MaxChartPoints);
    sampled := TakeEvery(data, sampleRate);
    var selectedId := selection.selectedId;
    var hoveredId := selection.hoveredId;
    if Truthy(selectedId) {
      var selectedItem := FindById(data, selectedId.value);
      if selectedItem.Some? && !HasId(sampled, selectedId.value) {
        sampled := sampled + [selectedItem.value];
      }
    }
    if Truthy(hoveredId) && hoveredId != selectedId {
      var hoveredItem := FindById(data, hoveredId.value);
      if hoveredItem.Some? && !HasId(sampled, hoveredId.value) {
        sampled := sampled + [hoveredItem.value];
      }
    }
  }

  /** Up to 2000 records the sample is the data itself; beyond that it starts with the
      strided run `data[0], data[s], data[2s], ...` of at most 2000 records
      (`s = ceil(n / 2000)`) and adds at most the two pinned records. */
  lemma SampleShape(data: seq<Quake>, selection: SelectionState)
    ensures |data| <= MaxChartPoints ==> SampledData(data, selection) == data
    ensures |data| > MaxChartPoints ==>
      var run := Strided(data, CeilDiv(|data|, MaxChartPoints));
      var sampled := SampledData(data, selection);
      && |run| <= MaxChartPoints
      && |run| <= |sampled| <= |run| + 2
      && sampled[..|run|] == run
  {
    if |data| > MaxChartPoints {
      StridedWithinBudget(data, MaxChartPoints);
    }
  }

  /** A selected or hovered id that names a record of the data always has a record with
      that id in the sample. */
  lemma SampleKeepsPinned(data: seq<Quake>, selection: SelectionState)
    ensures Truthy(selection.selectedId) && HasId(data, selection.selectedId.value) ==>
      HasId(SampledData(data, selection), selection.selectedId.value)
    ensures Truthy(selection.hoveredId) && HasId(data, selection.hoveredId.value) ==>
      HasId(SampledData(data, selection), selection.hoveredId.value)
  {
    if |data| > MaxChartPoints {
      var run := Strided(data, CeilDiv(|data|, MaxChartPoints));
      var withSelected := PinRecord(run, data, selection.selectedId);
      if PinsHovered(selection) {
        var r := PinRecord(withSelected, data, selection.hoveredId);
        assert r == withSelected || r[..|withSelected|] == withSelected;
        if Truthy(selection.selectedId) && HasId(data, selection.selectedId.value) {
          var q :| q in withSelected && q.id == selection.selectedId.value;
          assert q in r by {
            if r != withSelected {
              var k :| 0 <= k < |withSelected| && withSelected[k] == q;
              assert r[k] == q;
            }
          }
        }
      }
    }
  }

  /** Every sampled record is a record of the data. */
  lemma SampleDrawnFromData(data: seq<Quake>, selection: SelectionState)
    ensures forall q :: q in SampledData(data, selection) ==> q in data
  {
    if |data| > MaxChartPoints {
      var run := Strided(data, CeilDiv(|data|, MaxChartPoints));
      assert forall q :: q in run ==> q in data by {
        forall q | q in run ensures q in data {
          var k :| 0 <= k < |run| && run[k] == q;
          StrideIndexInRange(|data|, CeilDiv(|data|, MaxChartPoints), k);
        }
      }
      var withSelected := PinRecord(run, data, selection.selectedId);
      assert forall q :: q in withSelected ==> q in data by {
        forall q | q in withSelected ensures q in data {
          if withSelected != run {
            assert withSelected == run + [withSelected[|run|]];
          }
        }
      }
      if PinsHovered(selection) {
        var r := PinRecord(withSelected, data, selection.hoveredId);
        forall q | q in r ensures q in data {
          if r != withSelected {
            assert r == withSelected + [r[|withSelected|]];
          }
        }
      }
    }
  }

  /** Ids that name no record add nothing: the sample is then the strided run alone. */
  lemma UnknownIdsAddNothing(data: seq<Quake>, selection: SelectionState)
    requires |data| > MaxChartPoints
    requires selection.selectedId.Some? ==> !HasId(data, selection.selectedId.value)
    requires selection.hoveredId.Some? ==> !HasId(data, selection.hoveredId.value)
    ensures SampledData(data, selection) == Strided(data, CeilDiv(|data|, MaxChartPoints))
  {
  }

  // ---------------------------------------------------------------------------------
  // Projection onto the axes

  /** `{ ...earthquake, x: earthquake[xAxis], y: earthquake[yAxis] }`. */
  datatype ChartPoint = ChartPoint(quake: Quake, x: Value, y: Value)

  function Project(q: Quake, xAxis: Axis, yAxis: Axis): ChartPoint
  {
    ChartPoint(q, Field(q, xAxis), Field(q, yAxis))
  }

  function QuakesOf(points: seq<ChartPoint>): seq<Quake>
  {
    Map(points, (p: ChartPoint) => p.quake)
  }

  /** The chart's test `item.x !== null && item.y !== null` (an `undefined` coordinate passes). */
  predicate PlottedOnChart(q: Quake, xAxis: Axis, yAxis: Axis)
  {
    Field(q, xAxis) != Null && Field(q, yAxis) != Null
  }

  /** The chart's test as a value, for `Keep`. */
  function PlottedTest(xAxis: Axis, yAxis: Axis): Quake -> bool
  {
    q => PlottedOnChart(q, xAxis, yAxis)
  }

  lemma QuakesOfProjection(s: seq<Quake>, f: Quake -> ChartPoint)
    requires forall q :: f(q).quake == q
    ensures QuakesOf(Map(s, f)) == s
  {
  }

  /** The `chartData` memo: the sampled records whose two chosen fields are both non-null,
      in order, each carrying those fields as its coordinates. */
  function ChartData(sampled: seq<Quake>, xAxis: Axis, yAxis: Axis): (points: seq<ChartPoint>)
    ensures QuakesOf(points) == Keep(sampled, PlottedTest(xAxis, yAxis))
    ensures IsSubsequence(QuakesOf(points), sampled)
    ensures forall p :: p in points ==>
      p.x == Field(p.quake, xAxis) && p.y == Field(p.quake, yAxis) && p.x != Null && p.y != Null
  {
    var f := q => Project(q, xAxis, yAxis);
    var keep := (p: ChartPoint) => p.x != Null && p.y != Null;
    var plotted := PlottedTest(xAxis, yAxis);
    var points := Keep(Map(sampled, f), keep);
    KeepMap(sampled, f, keep);
    KeepCongruent(sampled, Through(f, keep), plotted);
    QuakesOfProjection(Keep(sampled, plotted), f);
    KeepIsSubsequence(sampled, plotted);
    points
  }

  // ---------------------------------------------------------------------------------
  // Dots

  datatype DotStyle = DotStyle(radius: nat, fill: string, opacity: real)

  /** `CustomDot`: selected before hovered; radius 6, 4 or 3. */
  function DotStyleOf(selection: SelectionState, id: string): (style: DotStyle)
    ensures style.radius == 6 <==> selection.selectedId == Some(id)
    ensures style.radius == 4 <==> selection.selectedId != Some(id) && selection.hoveredId == Some(id)
    ensures style.radius == 3 <==> selection.selectedId != Some(id) && selection.hoveredId != Some(id)
  {
    match EmphasisOf(selection, id)
    case Selected => DotStyle(6, "#ef4444", 1.0)
    case Hovered => DotStyle(4, "#f59e0b", 0.8)
    case Plain => DotStyle(3, "#3b82f6", 0.6)
  }

  /** `handleDotClick`. */
  method HandleDotClick(ctx: SelectionContext, point: ChartPoint)
    modifies ctx
    ensures ctx.selectedId == Some(point.quake.id) && ctx.hoveredId == old(ctx.hoveredId)
  {
    ctx.SetSelectedId(Some(point.quake.id));
  }

  /** `handleDotMouseEnter`. */
  method HandleDotMouseEnter(ctx: SelectionContext, point: ChartPoint)
    modifies ctx
    ensures ctx.hoveredId == Some(point.quake.id) && ctx.selectedId == old(ctx.selectedId)
  {
    ctx.SetHoveredId(Some(point.quake.id));
  }

  /** `handleDotMouseLeave`. */
  method HandleDotMouseLeave(ctx: SelectionContext)
    modifies ctx
    ensures ctx.hoveredId == None && ctx.selectedId == old(ctx.selectedId)
  {
    ctx.SetHoveredId(None);
  }
}
