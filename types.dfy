/** The record shapes of `src/types/earthquake.ts`, restricted to the fields the
    pipeline reads. */
module Types {
  import opened Wrappers

  /** A numeric CSV cell after dynamic typing: a number, `null` (an empty cell), or
      `undefined` (a cell the row does not have). */
  datatype Value = Num(n: real) | Null | Undefined

  /** One seismic event, as a row of the parsed feed. A missing or empty id is the empty string. */
  datatype Quake = Quake(
    id: string,
    place: string,
    mag: Value,
    depth: Value,
    latitude: Value,
    longitude: Value,
    rms: Value,
    gap: Value,
    dmin: Value,
    horizontalError: Value,
    depthError: Value,
    magError: Value)

  /** The numeric columns a chart axis can show: the closed table behind `keyof EarthquakeData`
      lookups on the chart's axes. */
  datatype Axis =
    | Mag | Depth | Latitude | Longitude | Rms | Gap | Dmin
    | HorizontalError | DepthError | MagError

  const AllAxes: seq<Axis> :=
    [Mag, Depth, Latitude, Longitude, Rms, Gap, Dmin, HorizontalError, DepthError, MagError]

  /** The table of axes is closed: `AllAxes` lists each of them. */
  lemma AllAxesListed(a: Axis)
    ensures a in AllAxes
  {
    match a
    case Mag => assert AllAxes[0] == a;
    case Depth => assert AllAxes[1] == a;
    case Latitude => assert AllAxes[2] == a;
    case Longitude => assert AllAxes[3] == a;
    case Rms => assert AllAxes[4] == a;
    case Gap => assert AllAxes[5] == a;
    case Dmin => assert AllAxes[6] == a;
    case HorizontalError => assert AllAxes[7] == a;
    case DepthError => assert AllAxes[8] == a;
    case MagError => assert AllAxes[9] == a;
  }

  /** `earthquake[axis]`. */
  function Field(q: Quake, axis: Axis): Value
  {
    match axis
    case Mag => q.mag
    case Depth => q.depth
    case Latitude => q.latitude
    case Longitude => q.longitude
    case Rms => q.rms
    case Gap => q.gap
    case Dmin => q.dmin
    case HorizontalError => q.horizontalError
    case DepthError => q.depthError
    case MagError => q.magError
  }

  /** The shared selection: which record is selected (clicked) and which is hovered. */
  datatype SelectionState = SelectionState(selectedId: Option<string>, hoveredId: Option<string>)
}
