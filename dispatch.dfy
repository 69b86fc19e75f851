/**
 * How `main` treats one source variable before writing it: which reshaping
 * its name selects, which dimension names it is declared over, and whether it
 * gets a fill value.
 */
module Dispatch {
  import opened Wrappers
  import opened Errors
  import opened PyText
  import opened Rotation
  import opened Config

  /** The four branches of the dispatch on the variable's name. */
  datatype Kind =
    | Grid2D     // `latitude`, `longitude`: one quarter turn
    | Subdaily   // `*_subdaily`: a quarter turn of axes 1 and 2
    | Daily      // `*_daily`: a quarter turn, then a leading axis
    | Unchanged  // `time*` and everything else

  /** The branch `main` takes for variable `name`; a `time` prefix is checked
      before the suffixes. */
  function KindOf(name: string): Kind {
    if name == "latitude" || name == "longitude" then Grid2D
    else if StartsWith(name, "time") then Unchanged
    else if EndsWith(name, "_subdaily") then Subdaily
    else if EndsWith(name, "_daily") then Daily
    else Unchanged
  }

  /** The `fill_value` argument: the configured fill for the listed variables,
      no fill value otherwise. */
  function FillFor(name: string): (f: Option<real>)
    ensures f.Some? <==> name in FilledVariables
    ensures f.Some? ==> f.value == FillValue
  {
    if name in FilledVariables then Some(FillValue) else None
  }

  /** The data and dimension names the variable is written with.  numpy's
      `rot90` raises a ValueError on an array with fewer axes than it turns. */
  function Transform(name: string, data: Array, dims: seq<string>): (r: Result<(Array, seq<string>), Failure>)
    ensures r.Err? <==> (KindOf(name) == Subdaily && |data.shape| < 3)
                        || ((KindOf(name) == Grid2D || KindOf(name) == Daily) && |data.shape| < 2)
    ensures r.Err? ==> r.error == AxesOutOfRange(name)
  {
    match KindOf(name)
    case Grid2D =>
      if |data.shape| < 2 then Err(AxesOutOfRange(name))
      else Ok((Rot90(data), ["rows", "columns"]))
    case Subdaily =>
      if |data.shape| < 3 then Err(AxesOutOfRange(name))
      else Ok((RotTrailing(data), ["timeslices", "rows", "columns"]))
    case Daily =>
      if |data.shape| < 2 then Err(AxesOutOfRange(name))
      else Ok((NewAxis(Rot90(data)), ["time", "rows", "columns"]))
    case Unchanged => Ok((data, dims))
  }

  /** No name ends with both suffixes, so the order of the two suffix tests
      does not matter. */
  lemma SuffixesExclusive(name: string)
    requires EndsWith(name, "_subdaily")
    ensures !EndsWith(name, "_daily")
  {
    assert name[|name| - 6] == "_subdaily"[3];
  }

  /** The configured grids and times take the branches their names suggest. */
  lemma ConfiguredKinds()
    ensures KindOf("latitude") == Grid2D && KindOf("longitude") == Grid2D
    ensures KindOf("time") == Unchanged && KindOf("timeintervals") == Unchanged
  {
    assert "timeintervals"[..4] == "time";
  }

  /** The configured soil-moisture fields take the branches their suffixes
      suggest. */
  lemma ConfiguredFieldKinds()
    ensures KindOf("SM_subdaily") == Subdaily && KindOf("SIGMA_subdaily") == Subdaily
    ensures KindOf("SM_daily") == Daily && KindOf("SIGMA_daily") == Daily
  {
    assert "SM_subdaily"[0] == 'S' && "SM_subdaily"[2..] == "_subdaily";
    assert "SIGMA_subdaily"[0] == 'S' && "SIGMA_subdaily"[5..] == "_subdaily";
    assert "SM_daily"[0] == 'S' && "SM_daily"[2..] == "_daily";
    assert "SIGMA_daily"[0] == 'S' && "SIGMA_daily"[5..] == "_daily" && "SIGMA_daily"[2] != '_';
  }

  /** A name starting with `time` is passed through whatever its suffix. */
  lemma TimePrefixPassesThrough(name: string, data: Array, dims: seq<string>)
    requires StartsWith(name, "time")
    ensures Transform(name, data, dims) == Ok((data, dims))
  {
    assert name != "latitude" && name != "longitude" by {
      assert name[0] == 't';
    }
  }

  /** Every name outside the three reshaping branches keeps its data and its
      dimension names. */
  lemma OtherNamesPassThrough(name: string, data: Array, dims: seq<string>)
    requires KindOf(name) == Unchanged
    ensures Transform(name, data, dims) == Ok((data, dims))
  {
  }

  /** Latitude and longitude grids are turned a quarter and declared over
      `(rows, columns)`: an m-by-n grid becomes n-by-m with `r[i][j] == a[j][n-1-i]`. */
  lemma GridTransform(name: string, data: Array, dims: seq<string>)
    requires KindOf(name) == Grid2D && |data.shape| >= 2
    ensures var r := Transform(name, data, dims);
      && r.Ok? && r.value.1 == ["rows", "columns"]
      && r.value.0.shape == [data.shape[1], data.shape[0]] + data.shape[2..]
      && forall i, j :: 0 <= i < data.shape[1] && 0 <= j < data.shape[0] ==>
           At(r.value.0, i, j) == At(data, j, data.shape[1] - 1 - i)
  {
  }

  /** A sub-daily field of shape (s, m, n) becomes (s, n, m), every time slice
      turned a quarter, declared over `(timeslices, rows, columns)`. */
  lemma SubdailyTransform(name: string, data: Array, dims: seq<string>)
    requires KindOf(name) == Subdaily && |data.shape| >= 3
    ensures var r := Transform(name, data, dims);
      && r.Ok? && r.value.1 == ["timeslices", "rows", "columns"]
      && r.value.0.shape == [data.shape[0], data.shape[2], data.shape[1]] + data.shape[3..]
      && forall k :: 0 <= k < data.shape[0] ==> Slab(r.value.0, k) == Rot90(Slab(data, k))
  {
  }

  /** A daily field of shape (m, n) becomes (1, n, m): the turned grid under a
      new leading axis of length one, declared over `(time, rows, columns)`. */
  lemma DailyTransform(name: string, data: Array, dims: seq<string>)
    requires KindOf(name) == Daily && |data.shape| >= 2
    ensures var r := Transform(name, data, dims);
      && r.Ok? && r.value.1 == ["time", "rows", "columns"]
      && r.value.0.shape == [1, data.shape[1], data.shape[0]] + data.shape[2..]
      && Slab(r.value.0, 0) == Rot90(data)
  {
  }

  /** When the source array has the rank its branch expects, the result has
      one axis per declared dimension. */
  lemma RankMatchesDims(name: string, data: Array, dims: seq<string>)
    requires KindOf(name) == Grid2D || KindOf(name) == Daily ==> |data.shape| == 2
    requires KindOf(name) == Subdaily ==> |data.shape| == 3
    requires KindOf(name) == Unchanged ==> |data.shape| == |dims|
    ensures var r := Transform(name, data, dims);
      r.Ok? && |r.value.0.shape| == |r.value.1|
  {
  }
}
