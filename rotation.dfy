/**
 * Dense N-dimensional arrays and the three reshapings the transcoder applies:
 * `numpy.rot90(a, k=1)` (a quarter turn of the first two axes), the same turn
 * of axes 1 and 2 (`axes=(1, 2)`), and `a[np.newaxis, ...]`.
 *
 * An array keeps its shape next to its nested data so that an axis of length
 * zero does not lose the lengths of the axes inside it.
 */
module Rotation {

  /** A scalar, or the sub-arrays along one axis. */
  datatype Nd = Cell(value: real) | Axis(items: seq<Nd>)

  predicate HasShape(a: Nd, shape: seq<nat>)
    decreases a
  {
    if shape == [] then a.Cell?
    else a.Axis? && |a.items| == shape[0]
         && forall i :: 0 <= i < |a.items| ==> HasShape(a.items[i], shape[1..])
  }

  datatype Tensor = Tensor(shape: seq<nat>, data: Nd)

  /** A `numpy.ndarray`: data laid out as its shape says. */
  type Array = t: Tensor | HasShape(t.data, t.shape) witness Tensor([], Cell(0.0))

  /** The element `a[i, j]` of an array with at least two axes (itself an array
      when there are more). */
  function At(a: Array, i: nat, j: nat): Nd
    requires |a.shape| >= 2 && i < a.shape[0] && j < a.shape[1]
  {
    RowShape(a, i);
    a.data.items[i].items[j]
  }

  /** `a[k]` of an array with at least one axis. */
  function Slab(a: Array, k: nat): (s: Array)
    requires |a.shape| >= 1 && k < a.shape[0]
    ensures s.shape == a.shape[1..]
  {
    Tensor(a.shape[1..], a.data.items[k])
  }

  /** Row `i` of an array with at least two axes holds `shape[1]` elements of
      shape `shape[2..]`. */
  lemma RowShape(a: Array, i: nat)
    requires |a.shape| >= 2 && i < a.shape[0]
    ensures a.data.items[i].Axis? && |a.data.items[i].items| == a.shape[1]
    ensures forall j :: 0 <= j < a.shape[1] ==> HasShape(a.data.items[i].items[j], a.shape[2..])
  {
    assert HasShape(a.data.items[i], a.shape[1..]);
    assert a.shape[1..][1..] == a.shape[2..];
  }

  lemma ElementShapes(a: Array)
    requires |a.shape| >= 2
    ensures forall i, j :: 0 <= i < a.shape[0] && 0 <= j < a.shape[1] ==> HasShape(At(a, i, j), a.shape[2..])
  {
    forall i, j | 0 <= i < a.shape[0] && 0 <= j < a.shape[1]
      ensures HasShape(At(a, i, j), a.shape[2..])
    {
      RowShape(a, i);
    }
  }

  /** An axis of `m` rows, each an axis of `n` elements of shape `rest`. */
  lemma GridShape(g: seq<seq<Nd>>, m: nat, n: nat, rest: seq<nat>)
    requires |g| == m
    requires forall i :: 0 <= i < m ==> |g[i]| == n
    requires forall i, j :: 0 <= i < m && 0 <= j < n ==> HasShape(g[i][j], rest)
    ensures HasShape(Axis(seq(m, i requires 0 <= i < m => Axis(g[i]))), [m, n] + rest)
  {
    var a := Axis(seq(m, i requires 0 <= i < m => Axis(g[i])));
    var shape := [m, n] + rest;
    assert shape[1..] == [n] + rest;
    assert ([n] + rest)[1..] == rest;
    forall i | 0 <= i < m
      ensures HasShape(a.items[i], shape[1..])
    {
      assert a.items[i] == Axis(g[i]);
    }
  }

  /** `numpy.flip(a, axis=1)`: each row reversed. */
  function FlipRows(a: Array): (r: Array)
    requires |a.shape| >= 2
    ensures r.shape == a.shape
    ensures forall i, j :: 0 <= i < a.shape[0] && 0 <= j < a.shape[1] ==>
              At(r, i, j) == At(a, i, a.shape[1] - 1 - j)
  {
    var m, n := a.shape[0], a.shape[1];
    var g := seq(m, i requires 0 <= i < m => seq(n, j requires 0 <= j < n => At(a, i, n - 1 - j)));
    ElementShapes(a);
    GridShape(g, m, n, a.shape[2..]);
    assert a.shape == [m, n] + a.shape[2..];
    Tensor(a.shape, Axis(seq(m, i requires 0 <= i < m => Axis(g[i]))))
  }

  /** `numpy.swapaxes(a, 0, 1)`: rows become columns. */
  function SwapAxes(a: Array): (r: Array)
    requires |a.shape| >= 2
    ensures r.shape == [a.shape[1], a.shape[0]] + a.shape[2..]
    ensures forall i, j :: 0 <= i < a.shape[1] && 0 <= j < a.shape[0] ==> At(r, i, j) == At(a, j, i)
  {
    var m, n := a.shape[0], a.shape[1];
    var g := seq(n, i requires 0 <= i < n => seq(m, j requires 0 <= j < m => At(a, j, i)));
    ElementShapes(a);
    GridShape(g, n, m, a.shape[2..]);
    Tensor([n, m] + a.shape[2..], Axis(seq(n, i requires 0 <= i < n => Axis(g[i]))))
  }

  /** `numpy.rot90(a, k=1)`, defined as numpy does: flip axis 1, then swap axes
      0 and 1.  An m-by-n array becomes n-by-m with `r[i][j] == a[j][n-1-i]`. */
  function Rot90(a: Array): (r: Array)
    requires |a.shape| >= 2
    ensures r.shape == [a.shape[1], a.shape[0]] + a.shape[2..]
    ensures forall i, j :: 0 <= i < a.shape[1] && 0 <= j < a.shape[0] ==>
              At(r, i, j) == At(a, j, a.shape[1] - 1 - i)
  {
    SwapAxes(FlipRows(a))
  }

  /** `numpy.rot90(a, k=1, axes=(1, 2))`: every slab along the first axis turned
      a quarter, so shape (s, m, n) becomes (s, n, m). */
  function RotTrailing(a: Array): (r: Array)
    requires |a.shape| >= 3
    ensures r.shape == [a.shape[0], a.shape[2], a.shape[1]] + a.shape[3..]
    ensures forall k :: 0 <= k < a.shape[0] ==> Slab(r, k) == Rot90(Slab(a, k))
  {
    var s := a.shape[0];
    var inner := [a.shape[2], a.shape[1]] + a.shape[3..];
    var slabs := seq(s, k requires 0 <= k < s => Rot90(Slab(a, k)));
    var r := Tensor([s] + inner, Axis(seq(s, k requires 0 <= k < s => slabs[k].data)));
    assert ([s] + inner)[1..] == inner;
    assert a.shape[1..][2..] == a.shape[3..];
    assert HasShape(r.data, r.shape) by {
      forall k | 0 <= k < s
        ensures HasShape(r.data.items[k], inner)
      {
        assert r.data.items[k] == slabs[k].data;
      }
    }
    r
  }

  /** `a[np.newaxis, ...]`: a leading axis of length one. */
  function NewAxis(a: Array): (r: Array)
    ensures r.shape == [1] + a.shape && Slab(r, 0) == a
  {
    var r := Tensor([1] + a.shape, Axis([a.data]));
    assert ([1] + a.shape)[1..] == a.shape;
    r
  }

  /** Two arrays of the same shape with the same elements at every `[i, j]`
      are equal. */
  lemma {:induction false} SameElements(a: Array, b: Array)
    requires |a.shape| >= 2 && a.shape == b.shape
    requires forall i, j :: 0 <= i < a.shape[0] && 0 <= j < a.shape[1] ==> At(a, i, j) == At(b, i, j)
    ensures a == b
  {
    var m, n := a.shape[0], a.shape[1];
    forall i | 0 <= i < m
      ensures a.data.items[i] == b.data.items[i]
    {
      RowShape(a, i);
      RowShape(b, i);
      forall j | 0 <= j < n
        ensures a.data.items[i].items[j] == b.data.items[i].items[j]
      {
        assert At(a, i, j) == At(b, i, j);
      }
      assert a.data.items[i].items == b.data.items[i].items;
    }
    assert a.data.items == b.data.items;
  }

  /** Four quarter turns give back the array: the rotation moves every element
      and loses none. */
  lemma FourQuarterTurns(a: Array)
    requires |a.shape| >= 2
    ensures Rot90(Rot90(Rot90(Rot90(a)))) == a
  {
    var m, n := a.shape[0], a.shape[1];
    var r1 := Rot90(a);
    var r2 := Rot90(r1);
    var r3 := Rot90(r2);
    var r4 := Rot90(r3);
    assert r4.shape == a.shape;
    forall i, j | 0 <= i < m && 0 <= j < n
      ensures At(r4, i, j) == At(a, i, j)
    {
      assert At(r4, i, j) == At(r3, j, m - 1 - i);
      assert At(r3, j, m - 1 - i) == At(r2, m - 1 - i, n - 1 - j);
      assert At(r2, m - 1 - i, n - 1 - j) == At(r1, n - 1 - j, i);
    }
    SameElements(r4, a);
  }
}
