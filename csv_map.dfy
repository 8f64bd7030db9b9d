/**
 The main window of the Geolocation CSV Reader: the loaded table, the list of
 geolocations extracted from it, the application status, and the map view the
 window renders from that list.
 */
module CsvMap {

  /** A cell of the loaded table, kept exactly as the CSV reader produced it. */
  datatype Cell = Num(value: real) | Text(text: string)

  /** One table row: column name to cell. */
  type Row = map<string, Cell>

  datatype RawTable = RawTable(columns: seq<string>, rows: seq<Row>)

  /**
   Column names are unique, every row has exactly the table's columns, and a
   table without columns has no rows.
   */
  ghost predicate WellFormed(t: RawTable)
  {
    && (forall i, j :: 0 <= i < j < |t.columns| ==> t.columns[i] != t.columns[j])
    && (forall k, c :: 0 <= k < |t.rows| ==> (c in t.rows[k] <==> c in t.columns))
    && (|t.columns| == 0 ==> |t.rows| == 0)
  }

  /** A table as the CSV reader hands it over. */
  type Table = t: RawTable | WellFormed(t) witness RawTable([], [])

  datatype Option<T> = None | Some(value: T)

  /** ApplicationDataStatus. */
  datatype Status = Unload | Load | Action

  /** One extracted record: the three cells of one row, unconverted. */
  datatype GeoLocation = GeoLocation(latitude: Cell, longitude: Cell, title: Cell)

  datatype Coord = Coord(lat: real, lon: real)

  /** The centre used when there is no geolocation to average. */
  const Fallback := Coord(40.712776, -74.005974)

  /** What the embedded map view shows. */
  datatype MapView =
    | Blank                                             // no page, or the empty page
    | Placeholder                                       // the "Map Placeholder" heading
    | Leaflet(center: Coord, markers: seq<GeoLocation>) // the generated map page

  /** How an operation of the window ended. */
  datatype Outcome =
    | Done
    | NoTable                   // no table is loaded (the attribute lookup fails)
    | MissingColumn(name: string) // a row has no such column (the key lookup fails)
    | NonNumeric                // a coordinate cell cannot be summed
    | ReadError                 // the CSV reader rejected the file

  /** What the file dialog and the CSV reader deliver when a file is opened. */
  datatype FileChoice = NoFileChosen | ReadFailed | Loaded(table: Table)

  // ---------------------------------------------------------------------
  // Extraction: one record per row, in row order

  ghost predicate HasColumns(rows: seq<Row>, lat: string, lon: string, title: string)
  {
    forall k :: 0 <= k < |rows| ==> lat in rows[k] && lon in rows[k] && title in rows[k]
  }

  /** The records that extraction builds from `rows`. */
  function Extracted(rows: seq<Row>, lat: string, lon: string, title: string): (r: seq<GeoLocation>)
    requires HasColumns(rows, lat, lon, title)
    ensures |r| == |rows|
    ensures forall k :: 0 <= k < |r| ==>
      r[k] == GeoLocation(rows[k][lat], rows[k][lon], rows[k][title])
  {
    if rows == [] then []
    else [GeoLocation(rows[0][lat], rows[0][lon], rows[0][title])] + Extracted(rows[1..], lat, lon, title)
  }

  /** Extracting from two blocks of rows is extracting from each and concatenating. */
  lemma ExtractedAppend(a: seq<Row>, b: seq<Row>, lat: string, lon: string, title: string)
    requires HasColumns(a, lat, lon, title) && HasColumns(b, lat, lon, title)
    ensures HasColumns(a + b, lat, lon, title)
    ensures Extracted(a + b, lat, lon, title) == Extracted(a, lat, lon, title) + Extracted(b, lat, lon, title)
  {
  }

  /**
   Extraction from `t` gets through every row: there are no rows, or all three
   columns exist.
   */
  ghost predicate Extractable(t: Table, lat: string, lon: string, title: string)
  {
    |t.rows| == 0 || (lat in t.columns && lon in t.columns && title in t.columns)
  }

  /** The first of the three columns, in the order latitude, longitude, title, that `t` lacks. */
  function FirstMissing(t: Table, lat: string, lon: string, title: string): string
  {
    if lat !in t.columns then lat else if lon !in t.columns then lon else title
  }

  // ---------------------------------------------------------------------
  // The map centre

  predicate AllNumeric(locs: seq<GeoLocation>)
  {
    forall k :: 0 <= k < |locs| ==> locs[k].latitude.Num? && locs[k].longitude.Num?
  }

  function Sum(xs: seq<real>): real
  {
    if xs == [] then 0.0 else xs[0] + Sum(xs[1..])
  }

  function Latitudes(locs: seq<GeoLocation>): (r: seq<real>)
    requires AllNumeric(locs)
    ensures |r| == |locs| && forall k :: 0 <= k < |r| ==> r[k] == locs[k].latitude.value
  {
    if locs == [] then [] else [locs[0].latitude.value] + Latitudes(locs[1..])
  }

  function Longitudes(locs: seq<GeoLocation>): (r: seq<real>)
    requires AllNumeric(locs)
    ensures |r| == |locs| && forall k :: 0 <= k < |r| ==> r[k] == locs[k].longitude.value
  {
    if locs == [] then [] else [locs[0].longitude.value] + Longitudes(locs[1..])
  }

  /**
   The centre of the map: the fallback for an empty list, otherwise the mean
   latitude and mean longitude; None when a coordinate cell is not a number.
   */
  function Centre(locs: seq<GeoLocation>): (r: Option<Coord>)
    ensures r.Some? <==> (|locs| == 0 || AllNumeric(locs))
    ensures |locs| == 0 ==> r == Some(Fallback)
  {
    if |locs| == 0 then Some(Fallback)
    else if AllNumeric(locs) then
      Some(Coord(Sum(Latitudes(locs)) / (|locs| as real), Sum(Longitudes(locs)) / (|locs| as real)))
    else None
  }

  lemma {:induction false} SumBounds(xs: seq<real>, lo: real, hi: real)
    requires forall k :: 0 <= k < |xs| ==> lo <= xs[k] <= hi
    ensures (|xs| as real) * lo <= Sum(xs) <= (|xs| as real) * hi
  {
    if xs != [] {
      SumBounds(xs[1..], lo, hi);
    }
  }

  /** A mean lies between any lower and upper bound of the values averaged. */
  lemma MeanBounds(xs: seq<real>, lo: real, hi: real)
    requires |xs| > 0
    requires forall k :: 0 <= k < |xs| ==> lo <= xs[k] <= hi
    ensures lo <= Sum(xs) / (|xs| as real) <= hi
  {
    SumBounds(xs, lo, hi);
    var n := |xs| as real;
    assert Sum(xs) / n * n == Sum(xs);
  }

  /**
   The centre of a non-empty, all-numeric list lies inside every box that
   holds all of its points.
   */
  lemma CentreWithinBounds(locs: seq<GeoLocation>, south: real, north: real, west: real, east: real)
    requires |locs| > 0 && AllNumeric(locs)
    requires forall k :: 0 <= k < |locs| ==> south <= locs[k].latitude.value <= north
    requires forall k :: 0 <= k < |locs| ==> west <= locs[k].longitude.value <= east
    ensures Centre(locs).Some?
    ensures south <= Centre(locs).value.lat <= north
    ensures west <= Centre(locs).value.lon <= east
  {
    MeanBounds(Latitudes(locs), south, north);
    MeanBounds(Longitudes(locs), west, east);
  }

  /** When every point is the same, the centre is that point. */
  lemma CentreOfOnePlace(locs: seq<GeoLocation>, lat: real, lon: real)
    requires |locs| > 0
    requires forall k :: 0 <= k < |locs| ==> locs[k].latitude == Num(lat) && locs[k].longitude == Num(lon)
    ensures Centre(locs) == Some(Coord(lat, lon))
  {
    CentreWithinBounds(locs, lat, lat, lon, lon);
  }

  // ---------------------------------------------------------------------
  // The window

  class MainWindow {
    var df: Option<Table>
    var geolocations: seq<GeoLocation>
    var status: Status
    var view: MapView

    /**
     The status says what is loaded: nothing in Unload, a table and no records
     yet in Load, a table in Action; a rendered map shows the current records
     around their centre.
     */
    ghost predicate Valid()
      reads this
    {
      && StatusValid()
      && (view.Leaflet? ==> view.markers == geolocations && Centre(geolocations) == Some(view.center))
    }

    /** The part of Valid() that does not depend on the map view being up to date. */
    ghost predicate StatusValid()
      reads this
    {
      && (status == Unload ==> df.None? && geolocations == [] && !view.Leaflet?)
      && (status == Load ==> df.Some? && geolocations == [] && !view.Leaflet?)
      && (status == Action ==> df.Some?)
    }

    /** Nothing the window owns has changed. */
    twostate predicate Unchanged()
      reads this
    {
      df == old(df) && geolocations == old(geolocations) && status == old(status) && view == old(view)
    }

    /**
     How extracting the columns `lat`, `lon` and `title` changed the window:
     with no table, or with a column missing while there are rows, nothing
     changes; otherwise one record per row is appended in row order, the
     status becomes Action, and the map is rendered around the new centre,
     or left blank when a coordinate is not a number.
     */
    twostate predicate Saved(lat: string, lon: string, title: string, outcome: Outcome)
      reads this
    {
      && (old(df).None? ==> outcome == NoTable && Unchanged())
      && (old(df).Some? && !Extractable(old(df).value, lat, lon, title)
          ==> outcome == MissingColumn(FirstMissing(old(df).value, lat, lon, title)) && Unchanged())
      && (old(df).Some? && Extractable(old(df).value, lat, lon, title)
          ==> && HasColumns(old(df).value.rows, lat, lon, title)
              && df == old(df)
              && geolocations == old(geolocations) + Extracted(old(df).value.rows, lat, lon, title)
              && status == Action
              && (outcome == Done <==> Centre(geolocations).Some?)
              && (outcome == Done ==> view == Leaflet(Centre(geolocations).value, geolocations))
              && (outcome != Done ==> outcome == NonNumeric && view == Blank))
    }

    constructor ()
      ensures Valid()
      ensures df.None? && geolocations == [] && status == Unload && view == Blank
    {
      df := None;
      geolocations := [];
      status := Unload;
      view := Blank;
    }

    /** File > New: drop the table and the records. */
    method NewData()
      modifies this
      ensures Valid()
      ensures df.None? && geolocations == [] && status == Unload && view == Placeholder
    {
      df := None;
      geolocations := [];
      view := Placeholder;
      status := Unload;
    }

    /** File > Close: the same reset as New. */
    method CloseCsv()
      modifies this
      ensures Valid()
      ensures df.None? && geolocations == [] && status == Unload && view == Placeholder
    {
      df := None;
      geolocations := [];
      view := Placeholder;
      status := Unload;
    }

    /**
     File > Open: reset, then take the table the reader produced, if any.
     A read failure is reported after the reset (ReadError).
     */
    method OpenCsv(choice: FileChoice) returns (outcome: Outcome)
      modifies this
      ensures Valid()
      ensures geolocations == [] && view == Placeholder
      ensures choice.Loaded? ==> df == Some(choice.table) && status == Load && outcome == Done
      ensures !choice.Loaded? ==> df.None? && status == Unload
      ensures outcome == if choice.ReadFailed? then ReadError else Done
    {
      NewData();
      outcome := Done;
      match choice {
        case NoFileChosen =>
        case ReadFailed =>
          outcome := ReadError;
        case Loaded(t) =>
          df := Some(t);
          status := Load;
      }
    }

    /**
     Append one record per table row, in row order, then move to Action and
     render the map.
     */
    method SaveData(lat: string, lon: string, title: string) returns (outcome: Outcome)
      requires Valid()
      modifies this
      ensures Valid()
      ensures Saved(lat, lon, title, outcome)
    {
      if df.None? {
        return NoTable;
      }
      var rows := df.value.rows;
      ghost var t := df.value;
      ghost var before := geolocations;
      var i := 0;
      while i < |rows|
        invariant 0 <= i <= |rows|
        invariant unchanged(`df, `status, `view)
        invariant i > 0 ==> lat in t.columns && lon in t.columns && title in t.columns
        invariant HasColumns(rows[..i], lat, lon, title)
        invariant geolocations == before + Extracted(rows[..i], lat, lon, title)
      {
        var row := rows[i];
        if !(lat in row && lon in row && title in row) {
          assert i == 0 && geolocations == before;
          return MissingColumn(if lat !in row then lat else if lon !in row then lon else title);
        }
        assert rows[..i + 1] == rows[..i] + [row];
        ExtractedAppend(rows[..i], [row], lat, lon, title);
        geolocations := geolocations + [GeoLocation(row[lat], row[lon], row[title])];
        i := i + 1;
      }
      assert rows[..i] == rows;
      status := Action;
      outcome := LoadMap();
    }

    /** Render the map, only once records have been extracted. */
    method LoadMap() returns (outcome: Outcome)
      requires StatusValid()
      modifies this`view
      ensures Valid()
      ensures old(status) != Action ==> view == old(view) && outcome == Done
      ensures old(status) == Action ==>
        && (outcome == Done <==> Centre(geolocations).Some?)
        && (outcome == Done ==> view == Leaflet(Centre(geolocations).value, geolocations))
        && (outcome != Done ==> outcome == NonNumeric && view == Blank)
    {
      outcome := Done;
      if status == Action {
        view := Blank;
        var centre := Centre(geolocations);
        if centre.None? {
          return NonNumeric;
        }
        view := Leaflet(centre.value, geolocations);
      }
    }
  }
}
