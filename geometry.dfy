/** The part of vedo's mesh library that the modelled code touches, kept symbolic:
    a mesh is the sequence of primitives (spheres and tubes) it was built from,
    `merge` concatenates them and `Mesh()` is the mesh with none. Coordinates are
    carried, never computed with. */
module Geometry {

  datatype Point = Point(x: real, y: real, z: real)

  /** The axis permutation `coords[[2, 1, 0]]`: (x, y, z) becomes (z, y, x). */
  function Swap(p: Point): (q: Point)
    ensures q.x == p.z && q.y == p.y && q.z == p.x
  {
    Point(p.z, p.y, p.x)
  }

  /** `coords[:, [2, 1, 0]]`: the same permutation on every point of a polyline. */
  function SwapAll(ps: seq<Point>): (r: seq<Point>)
    ensures |r| == |ps|
    ensures forall i :: 0 <= i < |ps| ==> r[i] == Swap(ps[i])
  {
    seq(|ps|, i requires 0 <= i < |ps| => Swap(ps[i]))
  }

  /** The permutation undoes itself. */
  lemma SwapAllTwice(ps: seq<Point>)
    ensures SwapAll(SwapAll(ps)) == ps
  {
  }

  /** Coordinates as a source with `invert_dims` hands them to vedo. */
  function Oriented(p: Point, invert: bool): Point {
    if invert then Swap(p) else p
  }

  function OrientedAll(ps: seq<Point>, invert: bool): seq<Point> {
    if invert then SwapAll(ps) else ps
  }

  datatype Shape =
    | Sphere(centre: Point, radius: real)
    | Tube(path: seq<Point>, radius: real)

  datatype Mesh = Mesh(shapes: seq<Shape>)

  /** vedo's `Mesh()`: a mesh with nothing in it. */
  const EmptyMesh: Mesh := Mesh([])

  /** vedo's `merge(meshes)`. */
  function Merge(ms: seq<Mesh>): (m: Mesh)
    ensures ms == [] ==> m == EmptyMesh
    decreases |ms|
  {
    if |ms| == 0 then EmptyMesh
    else Mesh(Merge(ms[..|ms| - 1]).shapes + ms[|ms| - 1].shapes)
  }

  lemma {:induction false} MergeAppend(ms: seq<Mesh>, m: Mesh)
    ensures Merge(ms + [m]).shapes == Merge(ms).shapes + m.shapes
  {
    assert (ms + [m])[..|ms|] == ms;
  }

  /** A merge starts with the first mesh's primitives. */
  lemma {:induction false} MergeFirstShape(ms: seq<Mesh>)
    requires |ms| > 0 && |ms[0].shapes| > 0
    ensures |Merge(ms).shapes| > 0 && Merge(ms).shapes[0] == ms[0].shapes[0]
    decreases |ms|
  {
    if |ms| > 1 {
      var front := ms[..|ms| - 1];
      assert front[0] == ms[0];
      MergeFirstShape(front);
    } else {
      assert Merge(ms).shapes == Merge([]).shapes + ms[0].shapes;
    }
  }

  /** The axis permutation applied to a primitive and to a mesh. */
  function SwapShape(s: Shape): Shape {
    match s
    case Sphere(c, r) => Sphere(Swap(c), r)
    case Tube(path, r) => Tube(SwapAll(path), r)
  }

  function SwapMesh(m: Mesh): (r: Mesh)
    ensures |r.shapes| == |m.shapes|
    ensures forall i :: 0 <= i < |m.shapes| ==> r.shapes[i] == SwapShape(m.shapes[i])
  {
    Mesh(seq(|m.shapes|, i requires 0 <= i < |m.shapes| => SwapShape(m.shapes[i])))
  }

  function SwapMeshes(ms: seq<Mesh>): (r: seq<Mesh>)
    ensures |r| == |ms|
    ensures forall i :: 0 <= i < |ms| ==> r[i] == SwapMesh(ms[i])
  {
    seq(|ms|, i requires 0 <= i < |ms| => SwapMesh(ms[i]))
  }

  /** Permuting the axes of the merged mesh is merging the permuted meshes. */
  lemma {:induction false} SwapMerge(ms: seq<Mesh>)
    ensures SwapMesh(Merge(ms)) == Merge(SwapMeshes(ms))
    decreases |ms|
  {
    if |ms| > 0 {
      var front := ms[..|ms| - 1];
      SwapMerge(front);
      assert SwapMeshes(ms)[..|ms| - 1] == SwapMeshes(front);
      var a := Merge(front).shapes;
      var b := ms[|ms| - 1].shapes;
      assert SwapMesh(Mesh(a + b)).shapes == SwapMesh(Mesh(a)).shapes + SwapMesh(Mesh(b)).shapes;
    }
  }

  /** How many vertices a primitive contributes: an abstraction of vedo's count that
      is positive for a sphere and, for a tube, zero only when its polyline is empty. */
  function ShapePoints(s: Shape): nat {
    match s
    case Sphere(_, _) => 1
    case Tube(path, _) => |path|
  }

  function ShapesPoints(ss: seq<Shape>): nat
    decreases |ss|
  {
    if |ss| == 0 then 0 else ShapesPoints(ss[..|ss| - 1]) + ShapePoints(ss[|ss| - 1])
  }

  /** `len(mesh.points())`. */
  function PointCount(m: Mesh): nat {
    ShapesPoints(m.shapes)
  }

  lemma {:induction false} ShapesPointsAppend(a: seq<Shape>, b: seq<Shape>)
    ensures ShapesPoints(a + b) == ShapesPoints(a) + ShapesPoints(b)
    decreases |b|
  {
    if |b| > 0 {
      assert (a + b)[..|a + b| - 1] == a + b[..|b| - 1];
      ShapesPointsAppend(a, b[..|b| - 1]);
    } else {
      assert a + b == a;
    }
  }

  /** A mesh holding a primitive with vertices has vertices. */
  lemma {:induction false} PointCountPositive(ss: seq<Shape>, i: nat)
    requires i < |ss| && ShapePoints(ss[i]) > 0
    ensures ShapesPoints(ss) > 0
    decreases |ss|
  {
    if i < |ss| - 1 {
      PointCountPositive(ss[..|ss| - 1], i);
    }
  }

  /** A mesh has no vertices exactly when none of its primitives has any. */
  lemma {:induction false} PointCountZero(ss: seq<Shape>)
    ensures ShapesPoints(ss) == 0 <==> forall i :: 0 <= i < |ss| ==> ShapePoints(ss[i]) == 0
    decreases |ss|
  {
    if |ss| > 0 {
      PointCountZero(ss[..|ss| - 1]);
      assert forall i :: 0 <= i < |ss| - 1 ==> ss[..|ss| - 1][i] == ss[i];
    }
  }
}
