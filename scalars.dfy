/**
 * `Scalar2D` and `Scalar3D` of `src/kicad/model/footprint_library.rs`: a
 * node that carries two or three numbers under a name chosen by its owner
 * (`start`, `end`, `xy`, `offset`, ...). The name is part of the value: it is
 * written as the node's name and read back from it.
 */
module Scalars {
  import opened Wrappers
  import opened Numbers
  import opened Syntax
  import opened Folding

  datatype Scalar2D = Scalar2D(name: string, x: Num, y: Num)

  datatype Scalar3D = Scalar3D(name: string, x: Num, y: Num, z: Num)

  /** `Scalar2D::default()`: no name and both coordinates zero. */
  function DefaultScalar2D(): Scalar2D { Scalar2D("", Finite(0.0), Finite(0.0)) }

  function WriteScalar2D(p: Scalar2D): SyntaxItem
  {
    SyntaxItem(p.name, [Number(p.x, Neutral), Number(p.y, Neutral)], [])
  }

  /** `Scalar2D::deserialize`: the node's name and its first two numbers; None when one is missing or not a number. */
  function ReadScalar2D(s: SyntaxItem): (r: Option<Scalar2D>)
    ensures r.Some? <==> |s.arguments| >= 2 && s.arguments[0].Number? && s.arguments[1].Number?
    ensures r.Some? ==> r.value.name == s.name
  {
    var x :- NumberAt(s, 0);
    var y :- NumberAt(s, 1);
    Some(Scalar2D(s.name, x, y))
  }

  /** `Scalar3D::default()`: no name and all three coordinates zero. */
  function DefaultScalar3D(): Scalar3D { Scalar3D("", Finite(0.0), Finite(0.0), Finite(0.0)) }

  function WriteScalar3D(p: Scalar3D): SyntaxItem
  {
    SyntaxItem(p.name, [Number(p.x, Neutral), Number(p.y, Neutral), Number(p.z, Neutral)], [])
  }

  /** `Scalar3D::deserialize`: the node's name and its first three numbers. */
  function ReadScalar3D(s: SyntaxItem): (r: Option<Scalar3D>)
    ensures r.Some? <==> |s.arguments| >= 3 && s.arguments[0].Number? && s.arguments[1].Number? && s.arguments[2].Number?
    ensures r.Some? ==> r.value.name == s.name
  {
    var x :- NumberAt(s, 0);
    var y :- NumberAt(s, 1);
    var z :- NumberAt(s, 2);
    Some(Scalar3D(s.name, x, y, z))
  }

  lemma Scalar2DRoundTrip(p: Scalar2D)
    ensures WriteScalar2D(p).name == p.name
    ensures ReadScalar2D(WriteScalar2D(p)) == Some(p)
  {
  }

  lemma Scalar3DRoundTrip(p: Scalar3D)
    ensures WriteScalar3D(p).name == p.name
    ensures ReadScalar3D(WriteScalar3D(p)) == Some(p)
  {
  }

  /** `children.iter().map(Scalar2D::serialize)`: a list of points, in order. */
  function WritePoints(points: seq<Scalar2D>): seq<SyntaxItem>
  {
    Map(points, WriteScalar2D)
  }

  /** `children.iter().map(Scalar2D::deserialize).collect()`: every point, in order; None when one is malformed. */
  function ReadPoints(items: seq<SyntaxItem>): Option<seq<Scalar2D>>
  {
    MapAll(items, ReadScalar2D)
  }

  /** The points come back in the order they were written, names included. */
  lemma {:induction false} PointsRoundTrip(points: seq<Scalar2D>)
    ensures |WritePoints(points)| == |points|
    ensures ReadPoints(WritePoints(points)) == Some(points)
  {
    if points != [] {
      assert WritePoints(points)[1..] == WritePoints(points[1..]);
      PointsRoundTrip(points[1..]);
      assert points == [points[0]] + points[1..];
    }
  }
}
