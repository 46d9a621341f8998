/**
 This module models how a field is streamed over a region: the entry records,
 the enumeration of an axis-aligned box of block positions, and the exact size
 hint `IBuilder` attaches to both the plain and the scaled stream.

 The box is the inclusive box spanned by two corners given in either order.
 The order in which positions are visited is not part of any contract here.
 */
module Regions {
  import opened Fields

  /** An integer block coordinate. */
  datatype Vec3i = Vec3i(x: int, y: int, z: int)

  /** One evaluation of a field at a coordinate. */
  datatype Entry = Entry(x: int, y: int, z: int, value: real)
  {
    function Pos(): Vec3i
    {
      Vec3i(x, y, z)
    }
  }

  /** An evaluation together with its estimated partial derivatives. */
  datatype ExtendedEntry = ExtendedEntry(x: int, y: int, z: int, value: real,
                                         gradX: real, gradY: real, gradZ: real)
  {
    function Pos(): Vec3i
    {
      Vec3i(x, y, z)
    }
  }

  /** A finite stream together with the size it reports up front. */
  datatype SizedStream<T> = SizedStream(items: seq<T>, sizeHint: int)

  /** Produces the entries of a scaled stream; the interpolating iterator
      behind it is not part of this model and is supplied as a parameter. */
  type Interpolator = (Field, Vec3i, Vec3i, Vec3i) -> seq<ExtendedEntry>

  function Min(a: int, b: int): int
  {
    if a <= b then a else b
  }

  function Max(a: int, b: int): int
  {
    if a <= b then b else a
  }

  /** The number of positions between two coordinates on one axis,
      both ends included: `|a - b| + 1`. */
  function AxisSize(a: int, b: int): (n: int)
    ensures n >= 1
    ensures n == Max(a, b) - Min(a, b) + 1
  {
    (if a <= b then b - a else a - b) + 1
  }

  /** The size `spliterator` and `scaledStream` report for the region between
      two corners. */
  function RegionSize(start: Vec3i, end: Vec3i): (n: int)
    ensures n >= 1
  {
    AxisSize(start.x, end.x) * AxisSize(start.y, end.y) * AxisSize(start.z, end.z)
  }

  ghost predicate InBox(p: Vec3i, start: Vec3i, end: Vec3i)
  {
    && Min(start.x, end.x) <= p.x <= Max(start.x, end.x)
    && Min(start.y, end.y) <= p.y <= Max(start.y, end.y)
    && Min(start.z, end.z) <= p.z <= Max(start.z, end.z)
  }

  ghost predicate Distinct<T>(s: seq<T>)
  {
    forall i, j :: 0 <= i < j < |s| ==> s[i] != s[j]
  }

  /** The integers `lo, lo + 1, ..., hi`. */
  function Range(lo: int, hi: int): (r: seq<int>)
    requires lo <= hi + 1
    ensures |r| == hi - lo + 1
    ensures forall i :: 0 <= i < |r| ==> r[i] == lo + i
    ensures forall v :: v in r <==> lo <= v <= hi
    ensures Distinct(r)
    decreases hi - lo
  {
    if lo > hi then [] else [lo] + Range(lo + 1, hi)
  }

  /** Every pair of an element of `xs` with an element of `ys`, each once. */
  function Cross<A(==,!new), B(==,!new)>(xs: seq<A>, ys: seq<B>): (r: seq<(A, B)>)
    ensures |r| == |xs| * |ys|
    ensures forall p :: p in r <==> p.0 in xs && p.1 in ys
    ensures Distinct(xs) && Distinct(ys) ==> Distinct(r)
    decreases |xs|
  {
    if |xs| == 0 then []
    else
      var row := seq(|ys|, j requires 0 <= j < |ys| => (xs[0], ys[j]));
      var rest := Cross(xs[1..], ys);
      CrossStep(xs, ys, row, rest);
      row + rest
  }

  /** One step of `Cross`: the first row glued to the cross of the tail. */
  lemma CrossStep<A(!new), B(!new)>(xs: seq<A>, ys: seq<B>, row: seq<(A, B)>, rest: seq<(A, B)>)
    requires |xs| > 0
    requires |row| == |ys| && forall j :: 0 <= j < |ys| ==> row[j] == (xs[0], ys[j])
    requires |rest| == (|xs| - 1) * |ys|
    requires forall p :: p in rest <==> p.0 in xs[1..] && p.1 in ys
    requires Distinct(xs[1..]) && Distinct(ys) ==> Distinct(rest)
    ensures |row + rest| == |xs| * |ys|
    ensures forall p :: p in row + rest <==> p.0 in xs && p.1 in ys
    ensures Distinct(xs) && Distinct(ys) ==> Distinct(row + rest)
  {
  }

  /** Every position of the box spanned by two corners, each exactly once
      (`BlockPos.getAllInBox` as a box enumeration). */
  function BoxPositions(start: Vec3i, end: Vec3i): (r: seq<Vec3i>)
    ensures |r| == RegionSize(start, end)
    ensures forall p :: p in r <==> InBox(p, start, end)
    ensures Distinct(r)
  {
    var xs := Range(Min(start.x, end.x), Max(start.x, end.x));
    var ys := Range(Min(start.y, end.y), Max(start.y, end.y));
    var zs := Range(Min(start.z, end.z), Max(start.z, end.z));
    var yz := Cross(ys, zs);
    var c := Cross(xs, yz);
    var r := seq(|c|, i requires 0 <= i < |c| => Vec3i(c[i].0, c[i].1.0, c[i].1.1));
    BoxPositionsFacts(start, end, xs, ys, zs, yz, c, r);
    r
  }

  lemma BoxPositionsFacts(start: Vec3i, end: Vec3i, xs: seq<int>, ys: seq<int>, zs: seq<int>,
                          yz: seq<(int, int)>, c: seq<(int, (int, int))>, r: seq<Vec3i>)
    requires |xs| == AxisSize(start.x, end.x)
    requires |ys| == AxisSize(start.y, end.y)
    requires |zs| == AxisSize(start.z, end.z)
    requires forall v :: v in xs <==> Min(start.x, end.x) <= v <= Max(start.x, end.x)
    requires forall v :: v in ys <==> Min(start.y, end.y) <= v <= Max(start.y, end.y)
    requires forall v :: v in zs <==> Min(start.z, end.z) <= v <= Max(start.z, end.z)
    requires |yz| == |ys| * |zs| && forall p :: p in yz <==> p.0 in ys && p.1 in zs
    requires |c| == |xs| * |yz| && forall p :: p in c <==> p.0 in xs && p.1 in yz
    requires Distinct(c)
    requires |r| == |c| && forall i :: 0 <= i < |c| ==> r[i] == Vec3i(c[i].0, c[i].1.0, c[i].1.1)
    ensures |r| == RegionSize(start, end)
    ensures forall p :: p in r <==> InBox(p, start, end)
    ensures Distinct(r)
  {
    assert |xs| * (|ys| * |zs|) == |xs| * |ys| * |zs|;
    forall p | InBox(p, start, end)
      ensures p in r
    {
      var t := (p.x, (p.y, p.z));
      assert t.1 in yz;
      assert t in c;
      var i :| 0 <= i < |c| && c[i] == t;
      assert r[i] == p;
    }
    forall p | p in r
      ensures InBox(p, start, end)
    {
      var i :| 0 <= i < |r| && r[i] == p;
      assert c[i] in c;
      assert c[i].1 in yz;
    }
    forall i, j | 0 <= i < j < |r|
      ensures r[i] != r[j]
    {
      assert c[i] != c[j];
    }
  }

  /** The entries `iterator(start, end)` yields: one per box position, each
      carrying the field's own value at that position. */
  function Iterate(f: Field, start: Vec3i, end: Vec3i): (r: seq<Entry>)
    ensures |r| == RegionSize(start, end)
    ensures forall i :: 0 <= i < |r| ==> r[i].value == f(r[i].x, r[i].y, r[i].z)
    ensures forall i :: 0 <= i < |r| ==> InBox(r[i].Pos(), start, end)
    ensures forall p :: InBox(p, start, end) ==> exists i :: 0 <= i < |r| && r[i].Pos() == p
    ensures forall i, j :: 0 <= i < j < |r| ==> r[i].Pos() != r[j].Pos()
  {
    var ps := BoxPositions(start, end);
    var r := seq(|ps|, i requires 0 <= i < |ps| => Entry(ps[i].x, ps[i].y, ps[i].z, f(ps[i].x, ps[i].y, ps[i].z)));
    assert forall i :: 0 <= i < |r| ==> r[i].Pos() == ps[i];
    assert forall i :: 0 <= i < |ps| ==> ps[i] in ps;
    r
  }

  /** `stream` / `spliterator`: the iterator's entries with the SIZED hint
      `dx * dy * dz`, which is exactly the number of entries. */
  function Stream(f: Field, start: Vec3i, end: Vec3i): (s: SizedStream<Entry>)
    ensures s.sizeHint == |s.items| >= 1
    ensures s.items == Iterate(f, start, end)
  {
    SizedStream(Iterate(f, start, end), RegionSize(start, end))
  }

  /** `scaledStream`: the interpolating iterator's entries, reported with the
      same size as the plain stream over the same region. */
  function ScaledStream(f: Field, start: Vec3i, end: Vec3i, scale: Vec3i,
                        interp: Interpolator): (s: SizedStream<ExtendedEntry>)
    ensures s.sizeHint == Stream(f, start, end).sizeHint
    ensures s.sizeHint == AxisSize(start.x, end.x) * AxisSize(start.y, end.y) * AxisSize(start.z, end.z)
    ensures s.items == interp(f, start, end, scale)
  {
    SizedStream(interp(f, start, end, scale), RegionSize(start, end))
  }
}
