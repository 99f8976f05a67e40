/** Paths as sequences of nodes, and the supernode builder: the local frame
    around one selected anchor (its neighbour indices, the vectors towards the
    neighbours, the anchor's own handles clamped to the neighbour distances),
    or the reason why that anchor cannot be rounded. */
module SuperNodes {
  import opened Outcomes
  import opened Geometry

  /** One node of a subpath: incoming handle, anchor, outgoing handle. A
      handle equal to its anchor means "no handle": a straight segment. */
  datatype Node = Node(inHandle: Point, anchor: Point, outHandle: Point)

  /** A subpath is closed when its first and last nodes are equal. */
  type Subpath = seq<Node>

  predicate Closed(sp: Subpath) {
    |sp| > 0 && sp[0] == sp[|sp| - 1]
  }

  /** The local frame of one corner. prevHandle and nextHandle are relative to
      the anchor and already clamped; prevHlen and nextHlen are their lengths. */
  datatype SuperNode = SuperNode(
    idx: nat, prevIdx: nat, nextIdx: nat, anchor: Point,
    prevDist: real, nextDist: real,
    prevHandle: Point, nextHandle: Point,
    prevHlen: real, nextHlen: real)

  /** What the builder makes of an index: a supernode; a subpath end that has
      no usable neighbour; a neighbour distance or handle length (len) that is
      shorter than the radius; or an index past the end of the subpath. */
  datatype Build = Built(sn: SuperNode) | AtBoundary | TooShort(len: real) | OutOfRange

  /** The facts every built supernode satisfies. */
  ghost predicate WellFormed(sp: Subpath, idx: nat, radius: real, sn: SuperNode) {
    && idx + 1 < |sp|
    && sn.prevIdx == (if idx == 0 then |sp| - 2 else idx - 1)
    && (idx == 0 ==> Closed(sp))
    && Measured(sp, idx, sn.prevIdx, radius, sn)
  }

  /** A handle vector that is no longer than the neighbour distance is kept;
      a longer one is scaled down to that distance. */
  function Clamp(n: Numerics, h: Point, dist: real): (r: (Point, real))
    requires ValidNumerics(n) && dist >= 0.0
    ensures 0.0 <= r.1 <= dist && r.1 <= Length(n, h)
    ensures Norm2(r.0) == r.1 * r.1
    ensures Length(n, h) <= dist ==> r == (h, Length(n, h))
    ensures Length(n, h) > dist ==> r.1 == dist
    ensures Cross(r.0, h) == 0.0 && Dot(r.0, h) >= 0.0
  {
    var len := Length(n, h);
    if len > dist then
      UnitScale(h, len, dist);
      ScaleAlong(h, dist / len);
      QuotientTimesSquare(dist, len);
      assert 0.0 <= dist * len;
      (Scale(h, dist / len), dist)
    else
      (h, len)
  }

  /** super_node: index 0 has the second-last node as its predecessor when
      the subpath is closed and no predecessor otherwise; the last index never
      has a successor. The neighbour distances and the anchor's own handles
      (or, where a handle is absent, the direction to that neighbour) must all
      be at least radius long. */
  function BuildSuperNode(n: Numerics, sp: Subpath, idx: nat, radius: real): (r: Build)
    requires ValidNumerics(n)
    ensures r.OutOfRange? <==> idx >= |sp|
    ensures r.AtBoundary? <==> idx < |sp| && (idx == |sp| - 1 || (idx == 0 && !Closed(sp)))
    ensures r.TooShort? ==> 0.0 <= r.len < radius
    ensures r.Built? ==> WellFormed(sp, idx, radius, r.sn)
    ensures r.TooShort? || r.Built? ==>
      var first := FirstBelow(Lengths(n, sp, idx, if idx == 0 then |sp| - 2 else idx - 1), radius);
      && idx + 1 < |sp| && (idx == 0 ==> Closed(sp))
      && (r.TooShort? <==> first.Some?)
      && (r.TooShort? ==> r.len == first.value)
  {
    if idx >= |sp| then OutOfRange
    else if idx == 0 && sp[0] != sp[|sp| - 1] then AtBoundary
    else if idx == |sp| - 1 then AtBoundary
    else Measure(n, sp, idx, if idx == 0 then |sp| - 2 else idx - 1, radius)
  }

  /** The facts Measure establishes about a built supernode. */
  ghost predicate Measured(sp: Subpath, idx: nat, prevIdx: nat, radius: real, sn: SuperNode)
    requires idx + 1 < |sp| && prevIdx < |sp|
  {
    && sn.idx == idx && sn.prevIdx == prevIdx && sn.nextIdx == idx + 1
    && sn.anchor == sp[idx].anchor
    && Side(sp[prevIdx].outHandle, sp[idx].inHandle, sn.anchor, radius, sn.prevDist, sn.prevHandle, sn.prevHlen)
    && Side(sp[idx + 1].inHandle, sp[idx].outHandle, sn.anchor, radius, sn.nextDist, sn.nextHandle, sn.nextHlen)
  }

  /** One side of a corner: dist is the distance to the neighbour's facing
      handle end, handle is the anchor's own handle (or that direction when the
      own handle is absent) clamped to dist, and hlen is its length. */
  ghost predicate Side(neighbour: Point, own: Point, anchor: Point, radius: real,
                       dist: real, handle: Point, hlen: real)
  {
    && dist * dist == Norm2(Sub(neighbour, anchor))
    && radius <= dist && radius <= hlen
    && 0.0 <= hlen <= dist
    && Norm2(handle) == hlen * hlen
    && (own == anchor ==> handle == Sub(neighbour, anchor))
    && Cross(handle, OwnHandle(own, anchor, Sub(neighbour, anchor))) == 0.0
    && Dot(handle, OwnHandle(own, anchor, Sub(neighbour, anchor))) >= 0.0
    && (Norm2(OwnHandle(own, anchor, Sub(neighbour, anchor))) <= dist * dist ==>
          handle == OwnHandle(own, anchor, Sub(neighbour, anchor)))
    && (Norm2(OwnHandle(own, anchor, Sub(neighbour, anchor))) > dist * dist ==> hlen == dist)
  }

  /** The part of super_node after the neighbour indices are known: the
      direction vectors, the handle vectors, the length checks in source order
      and the clamping. */
  function Measure(n: Numerics, sp: Subpath, idx: nat, prevIdx: nat, radius: real): (r: Build)
    requires ValidNumerics(n)
    requires idx + 1 < |sp| && prevIdx < |sp|
    ensures r.Built? || r.TooShort?
    ensures r.TooShort? ==> 0.0 <= r.len < radius
    ensures r.Built? ==> Measured(sp, idx, prevIdx, radius, r.sn)
    ensures r.TooShort? <==> FirstBelow(Lengths(n, sp, idx, prevIdx), radius).Some?
    ensures r.TooShort? ==> r.len == FirstBelow(Lengths(n, sp, idx, prevIdx), radius).value
  {
    var t := sp[idx];
    var dir1 := Sub(sp[prevIdx].outHandle, t.anchor);
    var dir2 := Sub(sp[idx + 1].inHandle, t.anchor);
    var dist1 := Length(n, dir1);
    var dist2 := Length(n, dir2);
    var h1 := OwnHandle(t.inHandle, t.anchor, dir1);
    var h2 := OwnHandle(t.outHandle, t.anchor, dir2);
    FirstBelowFour(dist1, dist2, Length(n, h1), Length(n, h2), radius);
    if dist1 < radius then TooShort(dist1)
    else if dist2 < radius then TooShort(dist2)
    else if Length(n, h1) < radius then TooShort(Length(n, h1))
    else if Length(n, h2) < radius then TooShort(Length(n, h2))
    else
      var c1 := ClampSide(n, sp[prevIdx].outHandle, t.inHandle, t.anchor, radius);
      var c2 := ClampSide(n, sp[idx + 1].inHandle, t.outHandle, t.anchor, radius);
      Built(SuperNode(idx, prevIdx, idx + 1, t.anchor, dist1, dist2, c1.0, c2.0, c1.1, c2.1))
  }

  /** The four lengths super_node checks against the radius, in the order it
      checks them: the distances to the previous and to the next neighbour,
      then the lengths of the anchor's incoming and outgoing handles (or of the
      directions that stand in for absent handles). */
  function Lengths(n: Numerics, sp: Subpath, idx: nat, prevIdx: nat): (lens: seq<real>)
    requires ValidNumerics(n)
    requires idx + 1 < |sp| && prevIdx < |sp|
    ensures |lens| == 4
    ensures forall i :: 0 <= i < 4 ==> lens[i] >= 0.0
  {
    var t := sp[idx];
    var dir1 := Sub(sp[prevIdx].outHandle, t.anchor);
    var dir2 := Sub(sp[idx + 1].inHandle, t.anchor);
    [Length(n, dir1), Length(n, dir2),
     Length(n, OwnHandle(t.inHandle, t.anchor, dir1)),
     Length(n, OwnHandle(t.outHandle, t.anchor, dir2))]
  }

  /** The first of the lengths, in order, that is below the radius; None when
      none is. */
  function FirstBelow(lens: seq<real>, radius: real): (r: Option<real>)
    ensures r.None? <==> forall i :: 0 <= i < |lens| ==> lens[i] >= radius
    ensures r.Some? ==> r.value in lens && r.value < radius
  {
    if |lens| == 0 then None
    else if lens[0] < radius then Some(lens[0])
    else
      assert forall i :: 1 <= i < |lens| ==> lens[i] == lens[1..][i - 1];
      FirstBelow(lens[1..], radius)
  }

  /** Every length before the one FirstBelow picks is at least the radius. */
  lemma {:induction false} FirstBelowIsFirst(lens: seq<real>, radius: real)
    requires FirstBelow(lens, radius).Some?
    ensures exists i :: 0 <= i < |lens| && lens[i] == FirstBelow(lens, radius).value
                        && forall j :: 0 <= j < i ==> lens[j] >= radius
  {
    if lens[0] < radius {
      assert lens[0] == FirstBelow(lens, radius).value;
    } else {
      FirstBelowIsFirst(lens[1..], radius);
      var i :| 0 <= i < |lens[1..]| && lens[1..][i] == FirstBelow(lens[1..], radius).value
               && forall j :: 0 <= j < i ==> lens[1..][j] >= radius;
      assert lens[i + 1] == lens[1..][i];
      assert forall j :: 1 <= j < i + 1 ==> lens[j] == lens[1..][j - 1];
    }
  }

  /** FirstBelow on four lengths is the chain of four tests. */
  lemma {:induction false} FirstBelowFour(a: real, b: real, c: real, d: real, radius: real)
    ensures FirstBelow([a, b, c, d], radius)
            == if a < radius then Some(a) else if b < radius then Some(b)
               else if c < radius then Some(c) else if d < radius then Some(d) else None
  {
    assert [d][1..] == [];
    assert FirstBelow([d], radius) == if d < radius then Some(d) else None;
    assert [c, d][1..] == [d];
    assert FirstBelow([c, d], radius) == if c < radius then Some(c) else FirstBelow([d], radius);
    assert [b, c, d][1..] == [c, d];
    assert FirstBelow([b, c, d], radius) == if b < radius then Some(b) else FirstBelow([c, d], radius);
    assert [a, b, c, d][1..] == [b, c, d];
  }

  /** The clamped handle and its length on one side of an accepted corner. */
  function ClampSide(n: Numerics, neighbour: Point, own: Point, anchor: Point, radius: real): (r: (Point, real))
    requires ValidNumerics(n)
    requires radius <= Length(n, Sub(neighbour, anchor))
    requires radius <= Length(n, OwnHandle(own, anchor, Sub(neighbour, anchor)))
    ensures Side(neighbour, own, anchor, radius, Length(n, Sub(neighbour, anchor)), r.0, r.1)
  {
    var dir := Sub(neighbour, anchor);
    var h := OwnHandle(own, anchor, dir);
    SquareOrder(Length(n, h), Length(n, dir), Norm2(h));
    Clamp(n, h, Length(n, dir))
  }

  /** The anchor's handle relative to the anchor; a zero vector (no handle) is
      replaced by the direction towards the neighbour. */
  function OwnHandle(own: Point, anchor: Point, dir: Point): (h: Point)
    ensures own == anchor ==> h == dir
    ensures own != anchor ==> h == Sub(own, anchor)
  {
    if Sub(own, anchor) == Point(0.0, 0.0) then dir else Sub(own, anchor)
  }
}
