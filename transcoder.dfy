/**
 * `main`: copy a source dataset into the target dataset the configuration
 * names, adding a one-element `time` axis, reshaping the grids, renaming the
 * grid dimensions to `lat`/`lon` and attaching the configured attributes.
 *
 * `Run` is the reference definition, built from the library calls of module
 * `Target`; `Transcode` makes the same calls on an open `Dataset` and is
 * proved to end in the state `Run` describes.  A Python exception stops the
 * run with the target as written so far, so a run's outcome is a `Progress`:
 * the target's contents and the failure, if any.
 */
module Transcoder {
  import opened Wrappers
  import opened Errors
  import opened Rotation
  import opened Config
  import opened Dispatch
  import opened Target

  /** A source dimension: its current length and whether it is unlimited. */
  datatype SourceDim = SourceDim(length: nat, unlimited: bool)

  /** A source variable: type code, dimension names and data. */
  datatype SourceVariable = SourceVariable(dtype: string, dims: seq<string>, data: Array)

  /** The source dataset's dimensions and variables, in file order. */
  datatype Source = Source(dims: seq<(string, SourceDim)>, vars: seq<(string, SourceVariable)>)

  datatype Progress = Progress(target: Container, failure: Option<Failure>)

  /** The `size` argument: the length, or `None` for an unlimited dimension. */
  function SizeArgument(d: SourceDim): Option<nat> {
    if d.unlimited then None else Some(d.length)
  }

  /** `time[:] = [conf.timev]`: the values as a one-axis array. */
  function TimeArray(v: seq<real>): (a: Array)
    ensures a.shape == [|v|]
  {
    var t := Tensor([|v|], Axis(seq(|v|, i requires 0 <= i < |v| => Cell(v[i]))));
    assert HasShape(t.data, t.shape) by {
      assert forall i :: 0 <= i < |v| ==> HasShape(t.data.items[i], t.shape[1..]);
    }
    t
  }

  /** The `time` variable as `main` declares it. */
  function TimeVariable(conf: Configuration, registry: Registry): Variable
    requires "time" in registry
  {
    Variable("f4", ["time"], None, Some(TimeArray(conf.timev)), registry["time"])
  }

  /** The target after the `time` dimension and variable are written: a
      dimension of length one and the variable with its attributes and value. */
  function Begin(conf: Configuration, registry: Registry): (c: Container)
    requires "time" in registry
    ensures c == Container(map["time" := Fixed(1)], map["time" := TimeVariable(conf, registry)], map[])
  {
    var c1 := DefineDimension(Empty, "time", Some(1)).value;
    var c2 := DefineVariable(c1, "time", "f4", ["time"], None).value;
    var c3 := SetVariableAttributes(c2, "time", registry["time"]);
    assert map[] + registry["time"] == registry["time"];
    WriteData(c3, "time", TimeArray(conf.timev))
  }

  /** Carry on with the result of a library call. */
  function Then(p: Progress, r: Result<Container, Failure>): Progress {
    match r
    case Ok(c) => Progress(c, None)
    case Err(e) => Progress(p.target, Some(e))
  }

  /** One pass of the dimension loop: once a call has failed nothing more
      happens; otherwise the dimension is added unless its name is taken, in
      which case the target stays as it was. */
  function CopyDimension(p: Progress, name: string, d: SourceDim): (r: Progress)
    ensures p.failure.Some? ==> r == p
    ensures r.failure.None? <==> p.failure.None? && name !in p.target.dims
    ensures r.failure.None? ==> r.target == p.target.(dims := p.target.dims[name := DimensionFor(SizeArgument(d))])
    ensures r.failure.Some? ==> r.target == p.target
  {
    if p.failure.Some? then p
    else Then(p, DefineDimension(p.target, name, SizeArgument(d)))
  }

  /** The dimension loop over `dims`, stopping at the first failure. */
  function CopyDimensions(p: Progress, dims: seq<(string, SourceDim)>): Progress
    decreases |dims|
  {
    if dims == [] then p
    else
      var last := dims[|dims| - 1];
      CopyDimension(CopyDimensions(p, dims[..|dims| - 1]), last.0, last.1)
  }

  /** The variable as `main` declares, fills and annotates it. */
  function Declared(registry: Registry, name: string, v: SourceVariable): Variable
    requires Transform(name, v.data, v.dims).Ok? && name in registry
  {
    var (data, dims) := Transform(name, v.data, v.dims).value;
    Variable(v.dtype, dims, FillFor(name), Some(data), registry[name])
  }

  /** One pass of the variable loop: reshape, `createVariable`, write the data,
      then look the attributes up in `Configuration.variables`, which raises a
      KeyError for a name it does not list, after the data is written.  The
      pass succeeds exactly when the reshaping applies, the name is new and
      registered and the declared dimensions exist; the variable is then
      present as `Declared` says and nothing else changes. */
  function CopyVariable(registry: Registry, p: Progress, name: string, v: SourceVariable): (r: Progress)
    ensures p.failure.Some? ==> r == p
    ensures r.failure.None? <==>
              && p.failure.None? && name in registry && name !in p.target.vars
              && Transform(name, v.data, v.dims).Ok?
              && forall d :: d in Transform(name, v.data, v.dims).value.1 ==> d in p.target.dims
    ensures r.failure.None? ==> r.target == p.target.(vars := p.target.vars[name := Declared(registry, name, v)])
    ensures p.failure.None? && r.failure == Some(UnregisteredVariable(name)) ==>
              && name !in registry && Transform(name, v.data, v.dims).Ok?
              && name in r.target.vars
              && r.target.vars[name].data == Some(Transform(name, v.data, v.dims).value.0)
              && r.target.vars[name].attributes == map[]
    ensures && p.failure.None? && name !in registry && name !in p.target.vars
            && Transform(name, v.data, v.dims).Ok?
            && (forall d :: d in Transform(name, v.data, v.dims).value.1 ==> d in p.target.dims) ==>
              r.failure == Some(UnregisteredVariable(name))
    ensures p.failure.None? && r.failure.Some? && r.failure != Some(UnregisteredVariable(name)) ==>
              r.target == p.target
  {
    if p.failure.Some? then p
    else
      match Transform(name, v.data, v.dims)
      case Err(e) => Progress(p.target, Some(e))
      case Ok((data, dims)) =>
        match DefineVariable(p.target, name, v.dtype, dims, FillFor(name))
        case Err(e) => Progress(p.target, Some(e))
        case Ok(c1) =>
          var c2 := WriteData(c1, name, data);
          if name in registry then
            assert map[] + registry[name] == registry[name];
            Progress(SetVariableAttributes(c2, name, registry[name]), None)
          else Progress(c2, Some(UnregisteredVariable(name)))
  }

  /** The variable loop over `vars`, stopping at the first failure. */
  function CopyVariables(registry: Registry, p: Progress, vars: seq<(string, SourceVariable)>): Progress
    decreases |vars|
  {
    if vars == [] then p
    else
      var last := vars[|vars| - 1];
      CopyVariable(registry, CopyVariables(registry, p, vars[..|vars| - 1]), last.0, last.1)
  }

  /** `Configuration.variables`: the attributes of each output variable. */
  type Registry = map<string, map<string, string>>

  /** Rename `rows` to `lat` and `columns` to `lon`, then set the globals. */
  function Finish(conf: Configuration, p: Progress): Progress {
    if p.failure.Some? then p
    else
      match RenameDimension(p.target, "rows", "lat")
      case Err(e) => Progress(p.target, Some(e))
      case Ok(c1) =>
        match RenameDimension(c1, "columns", "lon")
        case Err(e) => Progress(c1, Some(e))
        case Ok(c2) => Progress(SetGlobals(c2, conf.attributes), None)
  }

  /** The two loops of `main`, after the `time` axis is written. */
  function Loops(conf: Configuration, registry: Registry, source: Source): Progress
    requires "time" in registry
  {
    CopyVariables(registry, CopyDimensions(Progress(Begin(conf, registry), None), source.dims), source.vars)
  }

  /** The whole of `main` after the configuration is built. */
  function Run(conf: Configuration, registry: Registry, source: Source): Progress
    requires "time" in registry
  {
    Finish(conf, Loops(conf, registry, source))
  }

  /** The name a source dimension ends up with in the target. */
  function TargetName(name: string): string {
    if name == "rows" then "lat" else if name == "columns" then "lon" else name
  }

  /** The grid dimension names as they end up in the target. */
  function Renamed(dims: seq<string>): (r: seq<string>)
    ensures |r| == |dims| && forall i :: 0 <= i < |dims| ==> r[i] == TargetName(dims[i])
  {
    Relabel(Relabel(dims, "rows", "lat"), "columns", "lon")
  }

  /** A source variable as the finished target holds it: declared as `main`
      declares it, over the renamed dimensions. */
  function Written(registry: Registry, name: string, v: SourceVariable): Variable
    requires Transform(name, v.data, v.dims).Ok? && name in registry
  {
    var w := Declared(registry, name, v);
    w.(dims := Renamed(w.dims))
  }

  /** The names of a list of named entries. */
  function Names<T>(s: seq<(string, T)>): (r: set<string>)
    ensures forall i :: 0 <= i < |s| ==> s[i].0 in r
    ensures forall n :: n in r ==> exists i :: 0 <= i < |s| && s[i].0 == n
    decreases |s|
  {
    if s == [] then {}
    else
      var init := Names(s[..|s| - 1]);
      assert forall i :: 0 <= i < |s| - 1 ==> s[..|s| - 1][i] == s[i];
      init + {s[|s| - 1].0}
  }

  /** Every entry of `a` is in `b`, unchanged. */
  predicate Keeps<V(==)>(a: map<string, V>, b: map<string, V>) {
    forall k :: k in a ==> k in b && b[k] == a[k]
  }

  /** `c` has the dimension the source's `d` becomes under `name`. */
  predicate HasDimension(c: Container, name: string, d: SourceDim) {
    name in c.dims && c.dims[name] == DimensionFor(SizeArgument(d))
  }

  /** `c` has the source variable `v` as `main` declares it under `name`. */
  predicate HasVariable(registry: Registry, c: Container, name: string, v: SourceVariable) {
    && name in registry && Transform(name, v.data, v.dims).Ok?
    && name in c.vars && c.vars[name] == Declared(registry, name, v)
  }

  // ---------------------------------------------------------------------
  // Stopping at the first failure

  lemma {:induction false} DimensionsStop(p: Progress, dims: seq<(string, SourceDim)>, i: nat)
    requires i <= |dims| && CopyDimensions(p, dims[..i]).failure.Some?
    ensures CopyDimensions(p, dims) == CopyDimensions(p, dims[..i])
    decreases |dims| - i
  {
    if i < |dims| {
      assert dims[..i + 1][..i] == dims[..i];
      DimensionsStop(p, dims, i + 1);
    } else {
      assert dims[..i] == dims;
    }
  }

  lemma {:induction false} VariablesStop(registry: Registry, p: Progress, vars: seq<(string, SourceVariable)>, i: nat)
    requires i <= |vars| && CopyVariables(registry, p, vars[..i]).failure.Some?
    ensures CopyVariables(registry, p, vars) == CopyVariables(registry, p, vars[..i])
    decreases |vars| - i
  {
    if i < |vars| {
      assert vars[..i + 1][..i] == vars[..i];
      VariablesStop(registry, p, vars, i + 1);
    } else {
      assert vars[..i] == vars;
    }
  }

  /** The variable loop over one more entry is one more pass. */
  lemma VariablesPrefix(registry: Registry, p: Progress, vars: seq<(string, SourceVariable)>, i: nat)
    requires i < |vars|
    ensures CopyVariables(registry, p, vars[..i + 1])
            == CopyVariable(registry, CopyVariables(registry, p, vars[..i]), vars[i].0, vars[i].1)
  {
    assert vars[..i + 1][..i] == vars[..i];
  }

  lemma {:induction false} VariablesFailed(registry: Registry, p: Progress, vars: seq<(string, SourceVariable)>)
    requires p.failure.Some?
    ensures CopyVariables(registry, p, vars) == p
    decreases |vars|
  {
    if vars != [] {
      VariablesFailed(registry, p, vars[..|vars| - 1]);
    }
  }

  // ---------------------------------------------------------------------
  // What a successful loop leaves behind

  /** After a successful dimension loop every source dimension exists with the
      length or unlimitedness it has in the source, under a name that was new;
      the dimensions already there are kept, no other is added, and variables
      and globals are untouched. */
  lemma {:induction false} DimensionsCopied(p: Progress, dims: seq<(string, SourceDim)>)
    requires CopyDimensions(p, dims).failure.None?
    ensures var q := CopyDimensions(p, dims).target;
      && p.failure.None?
      && q.vars == p.target.vars && q.globals == p.target.globals
      && Keeps(p.target.dims, q.dims)
      && q.dims.Keys == p.target.dims.Keys + Names(dims)
      && forall i :: 0 <= i < |dims| ==> dims[i].0 !in p.target.dims && HasDimension(q, dims[i].0, dims[i].1)
    decreases |dims|
  {
    if dims != [] {
      var init := dims[..|dims| - 1];
      var last := dims[|dims| - 1];
      DimensionsCopied(p, init);
      var q := CopyDimensions(p, dims).target;
      forall i | 0 <= i < |dims|
        ensures dims[i].0 !in p.target.dims && HasDimension(q, dims[i].0, dims[i].1)
      {
        if i < |dims| - 1 {
          assert dims[i] == init[i];
        }
      }
    }
  }

  /** After a successful variable loop every source variable is registered,
      reshapes, was new, and is present as `Declared` says; the variables
      already there are kept, no other is added, and dimensions and globals
      are untouched. */
  lemma {:induction false} VariablesCopied(registry: Registry, p: Progress, vars: seq<(string, SourceVariable)>)
    requires CopyVariables(registry, p, vars).failure.None?
    ensures var q := CopyVariables(registry, p, vars).target;
      && p.failure.None?
      && q.dims == p.target.dims && q.globals == p.target.globals
      && Keeps(p.target.vars, q.vars)
      && q.vars.Keys == p.target.vars.Keys + Names(vars)
      && forall i :: 0 <= i < |vars| ==> vars[i].0 !in p.target.vars && HasVariable(registry, q, vars[i].0, vars[i].1)
    decreases |vars|
  {
    if vars != [] {
      var init := vars[..|vars| - 1];
      var last := vars[|vars| - 1];
      VariablesCopied(registry, p, init);
      var q := CopyVariables(registry, p, vars).target;
      forall i | 0 <= i < |vars|
        ensures vars[i].0 !in p.target.vars && HasVariable(registry, q, vars[i].0, vars[i].1)
      {
        if i < |vars| - 1 {
          assert vars[i] == init[i];
        }
      }
    }
  }

  /** The library never lets a variable refer to a dimension the dataset lacks,
      so every state a run passes through, failed or not, is consistent. */
  lemma {:induction false} DimensionsConsistent(p: Progress, dims: seq<(string, SourceDim)>)
    requires Consistent(p.target)
    ensures Consistent(CopyDimensions(p, dims).target)
    decreases |dims|
  {
    if dims != [] {
      DimensionsConsistent(p, dims[..|dims| - 1]);
    }
  }

  lemma {:induction false} VariablesConsistent(registry: Registry, p: Progress, vars: seq<(string, SourceVariable)>)
    requires Consistent(p.target)
    ensures Consistent(CopyVariables(registry, p, vars).target)
    decreases |vars|
  {
    if vars != [] {
      var mid := CopyVariables(registry, p, vars[..|vars| - 1]);
      VariablesConsistent(registry, p, vars[..|vars| - 1]);
      var last := vars[|vars| - 1];
      if mid.failure.None? && Transform(last.0, last.1.data, last.1.dims).Ok? {
        var (data, dims) := Transform(last.0, last.1.data, last.1.dims).value;
        DefineVariableEffect(mid.target, last.0, last.1.dtype, dims, FillFor(last.0));
      }
    }
  }

  // ---------------------------------------------------------------------
  // The whole run

  /** After both loops: the `time` dimension and variable, each source
      dimension and variable under its own name (none of them `time`), and
      nothing else; no global attributes yet. */
  lemma LoopsResult(conf: Configuration, registry: Registry, source: Source)
    requires "time" in registry
    requires Loops(conf, registry, source).failure.None?
    ensures var c := Loops(conf, registry, source).target;
      && c.dims.Keys == {"time"} + Names(source.dims) && c.dims["time"] == Fixed(1)
      && (forall i :: 0 <= i < |source.dims| ==>
            source.dims[i].0 != "time" && HasDimension(c, source.dims[i].0, source.dims[i].1))
      && c.vars.Keys == {"time"} + Names(source.vars) && c.vars["time"] == TimeVariable(conf, registry)
      && (forall i :: 0 <= i < |source.vars| ==>
            source.vars[i].0 != "time" && HasVariable(registry, c, source.vars[i].0, source.vars[i].1))
      && c.globals == map[]
  {
    var start := Progress(Begin(conf, registry), None);
    VariablesCopied(registry, CopyDimensions(start, source.dims), source.vars);
    DimensionsCopied(start, source.dims);
  }

  /** The renames need `rows` and `columns` and find `lat` and `lon` free; they
      move the two lengths to the new names, keep every other dimension,
      relabel every variable's dimensions, and the globals are then set. */
  lemma FinishResult(conf: Configuration, c: Container)
    requires Finish(conf, Progress(c, None)).failure.None?
    ensures var t := Finish(conf, Progress(c, None)).target;
      && "rows" in c.dims && "columns" in c.dims && "lat" !in c.dims && "lon" !in c.dims
      && t.dims.Keys == c.dims.Keys - {"rows", "columns"} + {"lat", "lon"}
      && "lat" in t.dims && t.dims["lat"] == c.dims["rows"]
      && "lon" in t.dims && t.dims["lon"] == c.dims["columns"]
      && (forall d :: d in c.dims && d != "rows" && d != "columns" ==> d in t.dims && t.dims[d] == c.dims[d])
      && t.vars.Keys == c.vars.Keys
      && (forall v :: v in c.vars ==> t.vars[v] == c.vars[v].(dims := Renamed(c.vars[v].dims)))
      && t.globals == c.globals + conf.attributes
  {
    RenameDimensionEffect(c, "rows", "lat");
    var c1 := RenameDimension(c, "rows", "lat").value;
    RenameDimensionEffect(c1, "columns", "lon");
    var c2 := RenameDimension(c1, "columns", "lon").value;
    assert c2.dims.Keys == c.dims.Keys - {"rows", "columns"} + {"lat", "lon"};
  }

  /** Every state of the target is consistent, whether or not the run fails. */
  lemma RunConsistent(conf: Configuration, registry: Registry, source: Source)
    requires "time" in registry
    ensures Consistent(Run(conf, registry, source).target)
  {
    var p := CopyDimensions(Progress(Begin(conf, registry), None), source.dims);
    DimensionsConsistent(Progress(Begin(conf, registry), None), source.dims);
    VariablesConsistent(registry, p, source.vars);
    var q := CopyVariables(registry, p, source.vars);
    if q.failure.None? {
      RenameDimensionEffect(q.target, "rows", "lat");
      if RenameDimension(q.target, "rows", "lat").Ok? {
        RenameDimensionEffect(RenameDimension(q.target, "rows", "lat").value, "columns", "lon");
      }
    }
  }

  /** The dimension names of a successful run: the source must have `rows`
      and `columns` and must not have `time`, `lat` or `lon`; the target has
      `time` and the source's names with `rows` and `columns` replaced by
      `lat` and `lon`, and nothing else. */
  lemma RunDimensionNames(conf: Configuration, registry: Registry, source: Source)
    requires "time" in registry
    requires Run(conf, registry, source).failure.None?
    ensures "rows" in Names(source.dims) && "columns" in Names(source.dims)
    ensures "time" !in Names(source.dims) && "lat" !in Names(source.dims) && "lon" !in Names(source.dims)
    ensures Run(conf, registry, source).target.dims.Keys
            == ({"time"} + Names(source.dims)) - {"rows", "columns"} + {"lat", "lon"}
  {
    LoopsResult(conf, registry, source);
    FinishResult(conf, Loops(conf, registry, source).target);
  }

  /** The dimensions of a successful run: `time` of length one, and every
      source dimension under its target name with the source's length or
      unlimitedness. */
  lemma RunDimensions(conf: Configuration, registry: Registry, source: Source)
    requires "time" in registry
    requires Run(conf, registry, source).failure.None?
    ensures var t := Run(conf, registry, source).target;
      && "time" in t.dims && t.dims["time"] == Fixed(1)
      && forall i :: 0 <= i < |source.dims| ==>
           && TargetName(source.dims[i].0) in t.dims
           && t.dims[TargetName(source.dims[i].0)] == DimensionFor(SizeArgument(source.dims[i].1))
  {
    LoopsResult(conf, registry, source);
    var c := Loops(conf, registry, source).target;
    assert Loops(conf, registry, source) == Progress(c, None);
    FinishResult(conf, c);
    var t := Run(conf, registry, source).target;
    assert "time" in c.dims && "time" != "rows" && "time" != "columns";
    forall i | 0 <= i < |source.dims|
      ensures && TargetName(source.dims[i].0) in t.dims
              && t.dims[TargetName(source.dims[i].0)] == DimensionFor(SizeArgument(source.dims[i].1))
    {
      var (n, d) := source.dims[i];
      assert HasDimension(c, n, d);
      if n == "rows" {
        assert t.dims["lat"] == c.dims["rows"];
      } else if n == "columns" {
        assert t.dims["lon"] == c.dims["columns"];
      } else {
        assert TargetName(n) == n && t.dims[n] == c.dims[n];
      }
    }
  }

  /** The variables of a successful run: `time` and every source variable,
      and nothing else; the source has no variable named `time`. */
  lemma RunVariableNames(conf: Configuration, registry: Registry, source: Source)
    requires "time" in registry
    requires Run(conf, registry, source).failure.None?
    ensures Run(conf, registry, source).target.vars.Keys == {"time"} + Names(source.vars)
    ensures "time" !in Names(source.vars)
  {
    LoopsResult(conf, registry, source);
    var c := Loops(conf, registry, source).target;
    assert Loops(conf, registry, source) == Progress(c, None);
    FinishResult(conf, c);
  }

  /** A successful run keeps the `time` variable as `main` first writes it. */
  lemma RunTimeVariable(conf: Configuration, registry: Registry, source: Source)
    requires "time" in registry
    requires Run(conf, registry, source).failure.None?
    ensures var t := Run(conf, registry, source).target;
      "time" in t.vars && t.vars["time"] == TimeVariable(conf, registry)
  {
    LoopsResult(conf, registry, source);
    var c := Loops(conf, registry, source).target;
    assert Loops(conf, registry, source) == Progress(c, None);
    FinishResult(conf, c);
    TimeNotRenamed();
    var w := TimeVariable(conf, registry);
    assert c.vars["time"] == w;
    assert w.(dims := Renamed(w.dims)) == w;
  }

  lemma TimeNotRenamed()
    ensures Renamed(["time"]) == ["time"]
  {
    assert Renamed(["time"])[0] == "time";
  }

  /** Each variable of a successful run is registered in
      `Configuration.variables`, reshapes, and is present as `main` declares
      it, over the renamed dimensions. */
  lemma RunVariables(conf: Configuration, registry: Registry, source: Source)
    requires "time" in registry
    requires Run(conf, registry, source).failure.None?
    ensures var t := Run(conf, registry, source).target;
      forall i :: 0 <= i < |source.vars| ==>
        && source.vars[i].0 in registry
        && Transform(source.vars[i].0, source.vars[i].1.data, source.vars[i].1.dims).Ok?
        && source.vars[i].0 in t.vars
        && t.vars[source.vars[i].0] == Written(registry, source.vars[i].0, source.vars[i].1)
  {
    LoopsResult(conf, registry, source);
    var c := Loops(conf, registry, source).target;
    assert Loops(conf, registry, source) == Progress(c, None);
    FinishResult(conf, c);
    var t := Run(conf, registry, source).target;
    forall i | 0 <= i < |source.vars|
      ensures && source.vars[i].0 in registry
              && Transform(source.vars[i].0, source.vars[i].1.data, source.vars[i].1.dims).Ok?
              && source.vars[i].0 in t.vars
              && t.vars[source.vars[i].0] == Written(registry, source.vars[i].0, source.vars[i].1)
    {
      assert HasVariable(registry, c, source.vars[i].0, source.vars[i].1);
    }
  }

  /** A successful run ends with the configuration's global attributes. */
  lemma RunGlobals(conf: Configuration, registry: Registry, source: Source)
    requires "time" in registry
    requires Run(conf, registry, source).failure.None?
    ensures Run(conf, registry, source).target.globals == conf.attributes
  {
    LoopsResult(conf, registry, source);
    FinishResult(conf, Loops(conf, registry, source).target);
    EmptyUnion(conf.attributes);
  }

  lemma EmptyUnion<K, V>(m: map<K, V>)
    ensures map[] + m == m
  {
  }

  // ---------------------------------------------------------------------
  // The run on an open dataset

  /** The dimension loop of `main` on the open dataset. */
  method CopyDimensionsInto(target: Dataset, dims: seq<(string, SourceDim)>) returns (failure: Option<Failure>)
    modifies target
    ensures Progress(target.Snapshot(), failure) == CopyDimensions(Progress(old(target.Snapshot()), None), dims)
  {
    ghost var start := Progress(target.Snapshot(), None);
    failure := None;
    var i := 0;
    while i < |dims| && failure.None?
      invariant 0 <= i <= |dims|
      invariant Progress(target.Snapshot(), failure) == CopyDimensions(start, dims[..i])
    {
      assert dims[..i + 1][..i] == dims[..i];
      failure := target.CreateDimension(dims[i].0, SizeArgument(dims[i].1));
      i := i + 1;
    }
    if failure.Some? {
      DimensionsStop(start, dims, i);
    } else {
      assert dims[..i] == dims;
    }
  }

  /** One pass of the variable loop on the open dataset. */
  method CopyVariableInto(target: Dataset, registry: Registry, name: string, v: SourceVariable) returns (failure: Option<Failure>)
    modifies target
    ensures Progress(target.Snapshot(), failure) == CopyVariable(registry, Progress(old(target.Snapshot()), None), name, v)
  {
    var transformed := Transform(name, v.data, v.dims);
    if transformed.Err? {
      return Some(transformed.error);
    }
    var (data, dims) := transformed.value;
    failure := target.CreateVariable(name, v.dtype, dims, FillFor(name));
    if failure.None? {
      target.Write(name, data);
      if name in registry {
        target.SetAttributes(name, registry[name]);
      } else {
        failure := Some(UnregisteredVariable(name));
      }
    }
  }

  /** The variable loop of `main` on the open dataset. */
  method CopyVariablesInto(target: Dataset, registry: Registry, vars: seq<(string, SourceVariable)>) returns (failure: Option<Failure>)
    modifies target
    ensures Progress(target.Snapshot(), failure) == CopyVariables(registry, Progress(old(target.Snapshot()), None), vars)
  {
    ghost var start := Progress(target.Snapshot(), None);
    failure := None;
    var i := 0;
    while i < |vars| && failure.None?
      invariant 0 <= i <= |vars|
      invariant Progress(target.Snapshot(), failure) == CopyVariables(registry, start, vars[..i])
    {
      VariablesPrefix(registry, start, vars, i);
      failure := CopyVariableInto(target, registry, vars[i].0, vars[i].1);
      i := i + 1;
    }
    if failure.Some? {
      VariablesStop(registry, start, vars, i);
    } else {
      assert vars[..i] == vars;
    }
  }

  /** The renames and the global attributes on the open dataset. */
  method FinishInto(target: Dataset, conf: Configuration) returns (failure: Option<Failure>)
    modifies target
    ensures Progress(target.Snapshot(), failure) == Finish(conf, Progress(old(target.Snapshot()), None))
  {
    failure := target.Rename("rows", "lat");
    if failure.None? {
      failure := target.Rename("columns", "lon");
      if failure.None? {
        target.SetGlobalAttributes(conf.attributes);
      }
    }
  }

  /** `main` with the configuration built: writes the target at
      `conf.output` and returns it with the failure that stopped it, if any. */
  method Transcode(conf: Configuration, registry: Registry, source: Source) returns (target: Dataset, failure: Option<Failure>)
    requires "time" in registry
    ensures fresh(target) && target.path == conf.output
    ensures Progress(target.Snapshot(), failure) == Run(conf, registry, source)
  {
    target := new Dataset(conf.output);
    failure := target.CreateDimension("time", Some(1));
    failure := target.CreateVariable("time", "f4", ["time"], None);
    target.SetAttributes("time", registry["time"]);
    target.Write("time", TimeArray(conf.timev));
    assert target.Snapshot() == Begin(conf, registry);
    failure := CopyDimensionsInto(target, source.dims);
    ghost var afterDims := Progress(target.Snapshot(), failure);
    if failure.None? {
      failure := CopyVariablesInto(target, registry, source.vars);
      if failure.None? {
        failure := FinishInto(target, conf);
      }
    } else {
      VariablesFailed(registry, afterDims, source.vars);
    }
  }

  /** `main(file)`: build the configuration, which may fail before any output
      exists, then transcode. */
  method Adapt(file: string, sourceAttributes: map<string, string>, version: real,
               bounds: Bounds, tstamp: string, source: Source)
    returns (target: Option<Dataset>, failure: Option<Failure>)
    ensures var conf := NewConfiguration(file, sourceAttributes, version, bounds, tstamp);
      match conf
      case Err(e) => target.None? && failure == Some(e)
      case Ok(c) => target.Some? && fresh(target.value) && target.value.path == c.output
                    && Progress(target.value.Snapshot(), failure) == Run(c, VariableAttributes, source)
  {
    var conf := NewConfiguration(file, sourceAttributes, version, bounds, tstamp);
    if conf.Err? {
      return None, Some(conf.error);
    }
    var t;
    t, failure := Transcode(conf.value, VariableAttributes, source);
    target := Some(t);
  }
}
