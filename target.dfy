/**
 * The output netCDF dataset, as far as the transcoder uses it: named
 * dimensions (fixed or unlimited), named variables declared over dimension
 * names, and global attributes.
 *
 * `Container` is the dataset's contents as a value, and the functions on it
 * say what each library call does; `Dataset` is the open file, whose methods
 * make those calls in place.
 */
module Target {
  import opened Wrappers
  import opened Errors
  import opened Rotation
  import opened Config

  /** A dimension's length; netCDF's unlimited dimension grows as data is written. */
  datatype Dim = Fixed(length: nat) | Unlimited

  /** `createDimension(name, size)`: a size of `None` or `0` makes the
      dimension unlimited. */
  function DimensionFor(size: Option<nat>): (d: Dim)
    ensures d.Unlimited? <==> size.None? || size.value == 0
    ensures d.Fixed? ==> d.length == size.value
  {
    match size
    case None => Unlimited
    case Some(n) => if n == 0 then Unlimited else Fixed(n)
  }

  /** A variable: its type code, its dimension names, its `_FillValue` (none
      when `fill_value=None`), the data written into it so far and its
      attributes. */
  datatype Variable = Variable(
    dtype: string,
    dims: seq<string>,
    fill: Option<real>,
    data: Option<Array>,
    attributes: map<string, string>)

  /** The dataset's contents.  The only global attributes the transcoder
      writes are the configured ones, so they are keyed by `Global`, whose
      `Name` is the attribute's name in the file. */
  datatype Container = Container(
    dims: map<string, Dim>,
    vars: map<string, Variable>,
    globals: map<Global, AttrValue>)

  const Empty: Container := Container(map[], map[], map[])

  /** Every variable is declared over dimensions the dataset has: the library
      refuses anything else. */
  predicate Consistent(c: Container) {
    forall v, d :: v in c.vars && d in c.vars[v].dims ==> d in c.dims
  }

  /** The first of `dims` the dataset does not define. */
  function FirstUndefined(c: Container, dims: seq<string>): (r: Option<string>)
    ensures r.None? <==> forall d :: d in dims ==> d in c.dims
    ensures r.Some? ==> r.value in dims && r.value !in c.dims
    ensures r.Some? ==> exists k :: 0 <= k < |dims| && dims[k] == r.value
                                   && forall j :: 0 <= j < k ==> dims[j] in c.dims
  {
    if dims == [] then None
    else if dims[0] !in c.dims then Some(dims[0])
    else FirstUndefined(c, dims[1..])
  }

  /** `createDimension(name, size)`. */
  function DefineDimension(c: Container, name: string, size: Option<nat>): Result<Container, Failure> {
    if name in c.dims then Err(NameInUse(name))
    else Ok(c.(dims := c.dims[name := DimensionFor(size)]))
  }

  /** `createVariable(name, dtype, dims, fill_value=fill)`: a new variable
      without data or attributes.  The dimension names are looked up first,
      so an undefined dimension is reported before a taken name. */
  function DefineVariable(c: Container, name: string, dtype: string, dims: seq<string>,
                          fill: Option<real>): Result<Container, Failure>
  {
    match FirstUndefined(c, dims)
    case Some(d) => Err(UndefinedDimension(d))
    case None =>
      if name in c.vars then Err(NameInUse(name))
      else Ok(c.(vars := c.vars[name := Variable(dtype, dims, fill, None, map[])]))
  }

  /** `variables[name][:] = data`. */
  function WriteData(c: Container, name: string, data: Array): Container
    requires name in c.vars
  {
    c.(vars := c.vars[name := c.vars[name].(data := Some(data))])
  }

  /** `variables[name].setncatts(attributes)`: each given attribute is set,
      the others kept. */
  function SetVariableAttributes(c: Container, name: string, attributes: map<string, string>): Container
    requires name in c.vars
  {
    var v := c.vars[name];
    c.(vars := c.vars[name := v.(attributes := v.attributes + attributes)])
  }

  /** `dims` with every occurrence of `from` replaced by `to`. */
  function Relabel(dims: seq<string>, from: string, to: string): (r: seq<string>)
    ensures |r| == |dims|
    ensures forall i :: 0 <= i < |dims| ==> r[i] == if dims[i] == from then to else dims[i]
  {
    seq(|dims|, i requires 0 <= i < |dims| => if dims[i] == from then to else dims[i])
  }

  /** `renameDimension(from, to)`.  Variables refer to dimensions, not to their
      names, so every variable over `from` is afterwards over `to`. */
  function RenameDimension(c: Container, from: string, to: string): Result<Container, Failure> {
    if from !in c.dims then Err(NoSuchDimension(from))
    else if to in c.dims then Err(NameInUse(to))
    else
      Ok(Container(
           (map d | d in c.dims && d != from :: c.dims[d])[to := c.dims[from]],
           map v | v in c.vars :: c.vars[v].(dims := Relabel(c.vars[v].dims, from, to)),
           c.globals))
  }

  /** `setncatts(attributes)` on the dataset. */
  function SetGlobals(c: Container, attributes: map<Global, AttrValue>): Container {
    c.(globals := c.globals + attributes)
  }

  /** A new dimension is added and nothing else changes; a taken name is refused. */
  lemma DefineDimensionEffect(c: Container, name: string, size: Option<nat>)
    ensures var r := DefineDimension(c, name, size);
      && (r.Err? <==> name in c.dims)
      && (r.Ok? ==> r.value.dims == c.dims[name := DimensionFor(size)]
                    && r.value.vars == c.vars && r.value.globals == c.globals
                    && (Consistent(c) ==> Consistent(r.value)))
  {
  }

  /** A new variable has the requested declaration and no data or attributes;
      a taken name or an undefined dimension is refused, the undefined
      dimension first, and a consistent dataset stays consistent. */
  lemma DefineVariableEffect(c: Container, name: string, dtype: string, dims: seq<string>,
                             fill: Option<real>)
    ensures var r := DefineVariable(c, name, dtype, dims, fill);
      && (r.Err? <==> name in c.vars || exists d :: d in dims && d !in c.dims)
      && ((exists d :: d in dims && d !in c.dims) ==> r.Err? && r.error.UndefinedDimension?)
      && (r.Ok? ==> && r.value.vars == c.vars[name := Variable(dtype, dims, fill, None, map[])]
                    && r.value.dims == c.dims && r.value.globals == c.globals
                    && (Consistent(c) ==> Consistent(r.value)))
  {
  }

  /** Renaming moves the dimension's length to the new name, keeps every other
      dimension, relabels every variable's dimension list and keeps everything
      else about the variables; a consistent dataset stays consistent. */
  lemma RenameDimensionEffect(c: Container, from: string, to: string)
    ensures var r := RenameDimension(c, from, to);
      && (r.Err? <==> from !in c.dims || to in c.dims)
      && (r.Ok? ==>
            && from !in r.value.dims && to in r.value.dims && r.value.dims[to] == c.dims[from]
            && (forall d :: d != from && d != to ==> (d in r.value.dims <==> d in c.dims))
            && (forall d :: d in c.dims && d != from ==> r.value.dims[d] == c.dims[d])
            && r.value.vars.Keys == c.vars.Keys
            && (forall v :: v in c.vars ==>
                  r.value.vars[v] == c.vars[v].(dims := Relabel(c.vars[v].dims, from, to)))
            && r.value.globals == c.globals
            && (Consistent(c) ==> Consistent(r.value)))
  {
    var r := RenameDimension(c, from, to);
    if r.Ok? && Consistent(c) {
      forall v, d | v in r.value.vars && d in r.value.vars[v].dims
        ensures d in r.value.dims
      {
        var i :| 0 <= i < |r.value.vars[v].dims| && r.value.vars[v].dims[i] == d;
        assert c.vars[v].dims[i] in c.vars[v].dims;
      }
    }
  }

  /** Renaming to a fresh name and back restores the dataset. */
  lemma RenameDimensionUndone(c: Container, from: string, to: string)
    requires from in c.dims && to !in c.dims
    requires forall v :: v in c.vars ==> to !in c.vars[v].dims
    ensures var r := RenameDimension(c, from, to);
      r.Ok? && RenameDimension(r.value, to, from) == Ok(c)
  {
    var r := RenameDimension(c, from, to).value;
    var back := RenameDimension(r, to, from).value;
    assert back.dims == c.dims;
    forall v | v in c.vars
      ensures back.vars[v] == c.vars[v]
    {
      assert Relabel(Relabel(c.vars[v].dims, from, to), to, from) == c.vars[v].dims;
    }
    assert back.vars == c.vars;
  }

  /** The dataset open for writing at `path`. */
  class Dataset {
    const path: string
    var dims: map<string, Dim>
    var vars: map<string, Variable>
    var globals: map<Global, AttrValue>

    function Snapshot(): Container
      reads this
    {
      Container(dims, vars, globals)
    }

    /** `Dataset(path, "w")`: an empty dataset. */
    constructor (path: string)
      ensures this.path == path && Snapshot() == Empty
    {
      this.path := path;
      dims, vars, globals := map[], map[], map[];
    }

    method CreateDimension(name: string, size: Option<nat>) returns (failure: Option<Failure>)
      modifies this
      ensures Applied(old(Snapshot()), DefineDimension(old(Snapshot()), name, size), Snapshot(), failure)
    {
      if name in dims {
        return Some(NameInUse(name));
      }
      dims := dims[name := DimensionFor(size)];
      return None;
    }

    method CreateVariable(name: string, dtype: string, variableDims: seq<string>, fill: Option<real>)
      returns (failure: Option<Failure>)
      modifies this
      ensures Applied(old(Snapshot()), DefineVariable(old(Snapshot()), name, dtype, variableDims, fill),
                      Snapshot(), failure)
    {
      var i := 0;
      while i < |variableDims|
        invariant 0 <= i <= |variableDims|
        invariant forall k :: 0 <= k < i ==> variableDims[k] in dims
        invariant FirstUndefined(Snapshot(), variableDims) == FirstUndefined(Snapshot(), variableDims[i..])
      {
        if variableDims[i] !in dims {
          return Some(UndefinedDimension(variableDims[i]));
        }
        assert variableDims[i..][1..] == variableDims[i + 1..];
        i := i + 1;
      }
      if name in vars {
        return Some(NameInUse(name));
      }
      vars := vars[name := Variable(dtype, variableDims, fill, None, map[])];
      return None;
    }

    method Write(name: string, data: Array)
      requires name in vars
      modifies this
      ensures Snapshot() == WriteData(old(Snapshot()), name, data)
    {
      vars := vars[name := vars[name].(data := Some(data))];
    }

    method SetAttributes(name: string, attributes: map<string, string>)
      requires name in vars
      modifies this
      ensures Snapshot() == SetVariableAttributes(old(Snapshot()), name, attributes)
    {
      var v := vars[name];
      vars := vars[name := v.(attributes := v.attributes + attributes)];
    }

    method Rename(from: string, to: string) returns (failure: Option<Failure>)
      modifies this
      ensures Applied(old(Snapshot()), RenameDimension(old(Snapshot()), from, to), Snapshot(), failure)
    {
      if from !in dims {
        return Some(NoSuchDimension(from));
      }
      if to in dims {
        return Some(NameInUse(to));
      }
      var length := dims[from];
      dims := (map d | d in dims && d != from :: dims[d])[to := length];
      vars := map v | v in vars :: vars[v].(dims := Relabel(vars[v].dims, from, to));
      return None;
    }

    method SetGlobalAttributes(attributes: map<Global, AttrValue>)
      modifies this
      ensures Snapshot() == SetGlobals(old(Snapshot()), attributes)
    {
      globals := globals + attributes;
    }
  }

  /** A library call either took effect as `r` says and reported no failure,
      or left the dataset as it was and reported `r`'s failure. */
  predicate Applied(before: Container, r: Result<Container, Failure>, after: Container,
                    failure: Option<Failure>)
  {
    match r
    case Ok(c) => after == c && failure.None?
    case Err(e) => after == before && failure == Some(e)
  }
}
