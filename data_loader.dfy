/** `src/utils/dataLoader.ts`: the header map handed to the CSV parser, the row-retention
    filter applied to its output, and the table of chart axes. */
module DataLoader {
  import opened Wrappers
  import opened Seqs
  import opened Types

  /** The `headerMap` object literal of `transformHeader`. */
  const HeaderMap: map<string, string> := map[
    "time" := "time", "latitude" := "latitude", "longitude" := "longitude",
    "depth" := "depth", "mag" := "mag", "magType" := "magType", "nst" := "nst",
    "gap" := "gap", "dmin" := "dmin", "rms" := "rms", "net" := "net", "id" := "id",
    "updated" := "updated", "place" := "place", "type" := "type",
    "horizontalError" := "horizontalError", "depthError" := "depthError",
    "magError" := "magError", "magNst" := "magNst", "status" := "status",
    "locationSource" := "locationSource", "magSource" := "magSource"]

  /** `headerMap[header] || header`: every header, mapped or not, comes back as itself. */
  function TransformHeader(header: string): (name: string)
    ensures name == header
  {
    if header in HeaderMap && HeaderMap[header] != "" then HeaderMap[header] else header
  }

  /** `row.id && row.mag !== null`: a truthy id and a magnitude that is not `null`
      (an `undefined` magnitude passes this test). */
  predicate Retained(row: Quake)
  {
    row.id != "" && row.mag != Null
  }

  /** The filter applied to the parser's rows: exactly the rows with a non-empty id and a
      non-null magnitude are kept, in their original order. */
  function RetainRows(rows: seq<Quake>): (kept: seq<Quake>)
    ensures forall q :: q in kept <==> q in rows && q.id != "" && q.mag != Null
    ensures IsSubsequence(kept, rows)
  {
    KeepIsSubsequence(rows, Retained);
    Keep(rows, Retained)
  }

  /** Retention is decided row by row: filtering a concatenation of row blocks is the
      concatenation of the filtered blocks. */
  lemma RetainRowsBlockwise(a: seq<Quake>, b: seq<Quake>)
    ensures RetainRows(a + b) == RetainRows(a) + RetainRows(b)
  {
    KeepAppend(a, b, Retained);
  }

  /** What `Papa.parse` reports for the fetched text (the parsing itself is not modelled),
      or the exception thrown while fetching or parsing. */
  datatype Parsed =
    | Parsed(rows: seq<Quake>, errors: seq<string>)
    | Threw(exception: string)

  /** `loadEarthquakeData`: parse errors are only warned about; an exception reaches the caller. */
  function LoadEarthquakeData(outcome: Parsed): (r: Result<seq<Quake>, string>)
    ensures r.Success? <==> outcome.Parsed?
    ensures r.Failure? ==> r.error == outcome.exception
    ensures r.Success? ==> r.value == RetainRows(outcome.rows)
    ensures r.Success? ==> forall q :: q in r.value ==> q.id != "" && q.mag != Null
    ensures r.Success? ==> forall q :: q in outcome.rows && Retained(q) ==> q in r.value
  {
    match outcome
    case Parsed(rows, _) => Success(RetainRows(rows))
    case Threw(e) => Failure(e)
  }

  /** The parse errors never change what is loaded. */
  lemma ParseErrorsIgnored(rows: seq<Quake>, errors1: seq<string>, errors2: seq<string>)
    ensures LoadEarthquakeData(Parsed(rows, errors1)) == LoadEarthquakeData(Parsed(rows, errors2))
  {
  }

  /** One entry of `getNumericColumns`. */
  datatype AxisOption = AxisOption(value: Axis, caption: string)

  function AxesOf(options: seq<AxisOption>): seq<Axis>
  {
    Map(options, (o: AxisOption) => o.value)
  }

  /** `getNumericColumns`: ten options with distinct axes, magnitude first and depth second,
      covering every axis the chart can show. */
  function NumericColumns(): (options: seq<AxisOption>)
    ensures |options| == 10
    ensures options[0].value == Mag && options[1].value == Depth
    ensures forall i, j :: 0 <= i < j < |options| ==> options[i].value != options[j].value
    ensures forall a: Axis :: a in AxesOf(options)
  {
    var options := [
      AxisOption(Mag, "Magnitude"),
      AxisOption(Depth, "Depth (km)"),
      AxisOption(Latitude, "Latitude"),
      AxisOption(Longitude, "Longitude"),
      AxisOption(Rms, "RMS"),
      AxisOption(Gap, "Gap (degrees)"),
      AxisOption(Dmin, "Min Distance"),
      AxisOption(HorizontalError, "Horizontal Error"),
      AxisOption(DepthError, "Depth Error"),
      AxisOption(MagError, "Magnitude Error") ];
    assert AxesOf(options) == AllAxes;
    assert forall a: Axis :: a in AllAxes by {
      forall a: Axis ensures a in AllAxes { AllAxesListed(a); }
    }
    options
  }
}
