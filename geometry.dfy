/** Plane vectors, the numeric primitives the extension borrows from Python's
    math module, and the two closed-form geometry helpers: the arc centre and
    midpoint of a corner, and the cubic Bezier handles of a circular arc. */
module Geometry {
  import opened Outcomes

  datatype Point = Point(x: real, y: real)

  function Add(p: Point, q: Point): Point { Point(p.x + q.x, p.y + q.y) }
  function Sub(p: Point, q: Point): Point { Point(p.x - q.x, p.y - q.y) }
  function Scale(p: Point, k: real): Point { Point(p.x * k, p.y * k) }
  function Dot(p: Point, q: Point): real { p.x * q.x + p.y * q.y }
  function Cross(p: Point, q: Point): real { p.x * q.y - p.y * q.x }
  function Norm2(p: Point): real { Dot(p, p) }

  lemma Norm2NonNegative(p: Point)
    ensures Norm2(p) >= 0.0
  {
  }

  /** The squared length of a scaled vector. */
  lemma Norm2Scale(p: Point, k: real)
    ensures Norm2(Scale(p, k)) == k * k * Norm2(p)
  {
  }

  lemma DivideSquare(k: real, l: real, n: real)
    requires l != 0.0 && n == l * l
    ensures (k / l) * (k / l) * n == k * k
  {
    assert (k / l) * l == k;
    calc {
      (k / l) * (k / l) * n;
      ((k / l) * l) * ((k / l) * l);
    }
  }

  /** Scaling a vector of length l by k / l gives a vector of length |k|. */
  lemma {:induction false} UnitScale(v: Point, l: real, k: real)
    requires l != 0.0 && l * l == Norm2(v)
    ensures Norm2(Scale(v, k / l)) == k * k
  {
    Norm2Scale(v, k / l);
    DivideSquare(k, l, Norm2(v));
  }

  /** A multiple of a vector is parallel to it, and its projection on the
      vector is k times the vector's squared length. */
  lemma {:induction false} ScaleAlong(v: Point, k: real)
    ensures Cross(Scale(v, k), v) == 0.0
    ensures Dot(Scale(v, k), v) == k * Norm2(v)
  {
    assert Cross(Scale(v, k), v) == k * (v.x * v.y - v.y * v.x);
    assert Dot(Scale(v, k), v) == k * (v.x * v.x + v.y * v.y);
  }

  /** Scaling by k / l the squared length l * l gives k * l. */
  lemma QuotientTimesSquare(k: real, l: real)
    requires l != 0.0
    ensures (k / l) * (l * l) == k * l
  {
    assert (k / l) * l == k;
    assert (k / l) * (l * l) == ((k / l) * l) * l;
  }

  /** For non-negative lengths, comparing lengths is comparing squares. */
  lemma SquareOrder(l: real, d: real, sq: real)
    requires 0.0 <= l && 0.0 <= d && l * l == sq
    ensures l <= d <==> sq <= d * d
  {
    if l <= d {
      MulNonNegative(l, d - l);
      MulNonNegative(d, d - l);
      assert l * (d - l) == l * d - l * l;
      assert d * (d - l) == d * d - d * l;
      assert l * d == d * l;
    } else {
      MulNonNegative(d, l - d);
      MulPositive(l, l - d);
      assert d * (l - d) == d * l - d * d;
      assert l * (l - d) == l * l - l * d;
      assert l * d == d * l;
    }
  }

  lemma MulNonNegative(x: real, y: real)
    requires 0.0 <= x && 0.0 <= y
    ensures 0.0 <= x * y
  {
  }

  lemma MulPositive(x: real, y: real)
    requires 0.0 < x && 0.0 < y
    ensures 0.0 < x * y
  {
  }

  /** Lagrange's identity in the plane: the squared dot and cross products of
      two vectors add up to the product of their squared lengths. */
  lemma Lagrange(a: Point, b: Point)
    ensures Dot(a, b) * Dot(a, b) + Cross(a, b) * Cross(a, b) == Norm2(a) * Norm2(b)
  {
    assert Dot(a, b) * Dot(a, b) == a.x * a.x * b.x * b.x + 2.0 * a.x * b.x * a.y * b.y + a.y * a.y * b.y * b.y;
    assert Cross(a, b) * Cross(a, b) == a.x * a.x * b.y * b.y - 2.0 * a.x * b.y * a.y * b.x + a.y * a.y * b.x * b.x;
    assert Norm2(a) * Norm2(b) == a.x * a.x * b.x * b.x + a.x * a.x * b.y * b.y + a.y * a.y * b.x * b.x + a.y * a.y * b.y * b.y;
  }

  /** The squared dot product of two vectors is at most the product of their
      squared lengths. */
  lemma {:induction false} CauchySchwarz(a: Point, b: Point)
    ensures Dot(a, b) * Dot(a, b) <= Norm2(a) * Norm2(b)
  {
    Lagrange(a, b);
    assert Cross(a, b) * Cross(a, b) >= 0.0;
  }

  /** math.sqrt, math.acos and math.tan, and math.pi, taken as given values.
      ValidNumerics states the facts about them that the model relies on. */
  datatype Numerics = Numerics(sqrt: real -> real, acos: real -> real, tan: real -> real, pi: real)

  ghost predicate ValidNumerics(n: Numerics) {
    && 3.14 < n.pi < 3.15
    && (forall v :: 0.0 <= v ==> 0.0 <= n.sqrt(v) && n.sqrt(v) * n.sqrt(v) == v)
    && (forall v :: 0.0 <= v ==> (n.sqrt(v) == 0.0 <==> v == 0.0))
    && (forall c :: -1.0 <= c <= 1.0 ==> 0.0 <= n.acos(c) <= n.pi)
    && (forall t :: 0.0 < t < n.pi / 2.0 ==> n.tan(t) > 0.0)
  }

  /** The length of a vector, as math.sqrt(x*x + y*y). */
  function Length(n: Numerics, p: Point): (l: real)
    requires ValidNumerics(n)
    ensures l >= 0.0 && l * l == Norm2(p)
    ensures l == 0.0 <==> Norm2(p) == 0.0
  {
    Norm2NonNegative(p);
    n.sqrt(Norm2(p))
  }

  /** The cosine of the angle between two non-zero vectors, their dot product
      over the product of their lengths la and lb, lies in [-1, 1]. */
  lemma {:induction false} CosineInRange(a: Point, b: Point, la: real, lb: real)
    requires Norm2(a) != 0.0 && Norm2(b) != 0.0
    requires 0.0 <= la && la * la == Norm2(a) && 0.0 <= lb && lb * lb == Norm2(b)
    ensures -1.0 <= Dot(a, b) / (la * lb) <= 1.0
  {
    CauchySchwarz(a, b);
    Quotient(Dot(a, b), Norm2(a), Norm2(b), la, lb);
  }

  /** The same over plain numbers: d with d² ≤ na · nb, and la, lb the
      non-negative roots of na, nb. */
  lemma {:induction false} Quotient(d: real, na: real, nb: real, la: real, lb: real)
    requires d * d <= na * nb && na != 0.0 && nb != 0.0
    requires 0.0 <= la && la * la == na && 0.0 <= lb && lb * lb == nb
    ensures la * lb > 0.0 && -1.0 <= d / (la * lb) <= 1.0
  {
    var den := la * lb;
    MulPositive(la, lb);
    assert den * den == na * nb by {
      assert den * den == (la * la) * (lb * lb);
    }
    assert d * d <= den * den;
    var ad := if d < 0.0 then -d else d;
    assert ad * ad == d * d;
    SquareOrder(ad, den, d * d);
    BoundedQuotient(d, den);
  }

  lemma BoundedQuotient(d: real, den: real)
    requires den > 0.0 && -den <= d <= den
    ensures -1.0 <= d / den <= 1.0
  {
    var q := d / den;
    assert q * den == d;
    assert (1.0 - q) * den == den - d;
    assert (q + 1.0) * den == d + den;
    NonNegativeFactor(1.0 - q, den);
    NonNegativeFactor(q + 1.0, den);
  }

  lemma NonNegativeFactor(x: real, y: real)
    requires y > 0.0 && x * y >= 0.0
    ensures x >= 0.0
  {
    if x < 0.0 {
      MulPositive(-x, y);
    }
  }

  /** arc_c_m_from_super_node: given the corner's anchor, its two trim points,
      the radius and the trim distance, the circle centre c and the arc
      midpoint m. Both lie on the ray from the anchor along the sum of the two
      trim vectors; c at distance sqrt(radius^2 + trim^2) from the anchor, m
      radius closer. A zero sum vector divides by zero. */
  function ArcCenterMid(n: Numerics, anchor: Point, trimPrev: Point, trimNext: Point,
                        radius: real, trim: real): (r: Result<(Point, Point)>)
    requires ValidNumerics(n)
    ensures r.Raise? <==> Norm2(Add(Sub(trimPrev, anchor), Sub(trimNext, anchor))) == 0.0
    ensures r.Raise? ==> r.error == ZeroDivisionError
    ensures r.Ok? ==> Norm2(Sub(r.value.0, r.value.1)) == radius * radius
    ensures r.Ok? ==> Norm2(Sub(r.value.0, anchor)) == radius * radius + trim * trim
    ensures r.Ok? ==>
      var v := Add(Sub(trimPrev, anchor), Sub(trimNext, anchor));
      Cross(Sub(r.value.0, anchor), v) == 0.0 && Cross(Sub(r.value.1, anchor), v) == 0.0
    ensures r.Ok? ==>
      var v := Add(Sub(trimPrev, anchor), Sub(trimNext, anchor));
      var cdist := n.sqrt(radius * radius + trim * trim);
      && Dot(Sub(r.value.0, anchor), v) == cdist * Length(n, v)
      && Dot(Sub(r.value.1, anchor), v) == (cdist - radius) * Length(n, v)
      && Dot(Sub(r.value.0, anchor), v) >= 0.0
  {
    var v := Add(Sub(trimPrev, anchor), Sub(trimNext, anchor));
    var l := Length(n, v);
    if l == 0.0 then Raise(ZeroDivisionError)
    else
      var sq := radius * radius + trim * trim;
      assert 0.0 <= sq by { SumOfSquares(radius, trim); }
      var cdist := n.sqrt(sq);
      assert 0.0 <= cdist && cdist * cdist == sq;
      var c := Add(anchor, Scale(v, cdist / l));
      var m := Add(anchor, Scale(v, (cdist - radius) / l));
      CenterMidFacts(v, l, anchor, cdist, radius, c, m);
      Ok((c, m))
  }

  lemma SumOfSquares(a: real, b: real)
    ensures 0.0 <= a * a + b * b
  {
  }

  lemma {:induction false} CenterMidFacts(v: Point, l: real, anchor: Point, cdist: real, radius: real, c: Point, m: Point)
    requires 0.0 < l && l * l == Norm2(v) && 0.0 <= cdist
    requires c == Add(anchor, Scale(v, cdist / l)) && m == Add(anchor, Scale(v, (cdist - radius) / l))
    ensures Norm2(Sub(c, m)) == radius * radius
    ensures Norm2(Sub(c, anchor)) == cdist * cdist
    ensures Cross(Sub(c, anchor), v) == 0.0 && Cross(Sub(m, anchor), v) == 0.0
    ensures Dot(Sub(c, anchor), v) == cdist * l && Dot(Sub(m, anchor), v) == (cdist - radius) * l
    ensures Dot(Sub(c, anchor), v) >= 0.0
  {
    var s, t := cdist / l, (cdist - radius) / l;
    assert s - t == radius / l;
    ScaleDifference(anchor, v, s, t);
    ScaleDifference(anchor, v, t, s);
    UnitScale(v, l, radius);
    UnitScale(v, l, cdist);
    ScaleAlong(v, cdist / l);
    ScaleAlong(v, (cdist - radius) / l);
    QuotientTimesSquare(cdist, l);
    QuotientTimesSquare(cdist - radius, l);
  }

  /** Two points along v from the same anchor differ by the difference of
      their multiples of v. */
  lemma {:induction false} ScaleDifference(anchor: Point, v: Point, s: real, t: real)
    ensures Sub(Add(anchor, Scale(v, s)), Add(anchor, Scale(v, t))) == Scale(v, s - t)
    ensures Sub(Add(anchor, Scale(v, s)), anchor) == Scale(v, s)
  {
    assert v.x * s - v.x * t == v.x * (s - t);
    assert v.y * s - v.y * t == v.y * (s - t);
  }

  /** A quarter turn counter-clockwise: (x, y) to (-y, x). */
  function Rot90(p: Point): Point { Point(-p.y, p.x) }

  /** A multiple of the quarter-turned vector is perpendicular to the vector
      and k times as long. */
  lemma {:induction false} RotatedOffset(a: Point, k: real)
    ensures Dot(Scale(Rot90(a), k), a) == 0.0
    ensures Norm2(Scale(Rot90(a), k)) == k * k * Norm2(a)
  {
    Norm2Scale(Rot90(a), k);
  }

  /** The control points p2, p3 of a cubic Bezier from c + a to c + b around
      centre c, for a given k2: p2 = c + a + k2 * Rot90(a) and
      p3 = c + b - k2 * Rot90(b). Whatever k2 is, each handle is tangent to the
      circle at its end point and is |k2| times the radius long there. */
  function BezierControls(c: Point, a: Point, b: Point, k2: real): (r: (Point, Point))
    ensures Dot(Sub(r.0, Add(c, a)), a) == 0.0
    ensures Dot(Sub(r.1, Add(c, b)), b) == 0.0
    ensures Norm2(Sub(r.0, Add(c, a))) == k2 * k2 * Norm2(a)
    ensures Norm2(Sub(r.1, Add(c, b))) == k2 * k2 * Norm2(b)
  {
    HandleAt(c, a, k2);
    HandleAt(c, b, k2);
    (Add(Add(c, a), Scale(Rot90(a), k2)), Add(Add(c, b), Scale(Rot90(b), -k2)))
  }

  /** A control point at the end point c + a, moved k quarter-turned a's
      either way, is perpendicular to a there and |k| times as long. */
  lemma {:induction false} HandleAt(c: Point, a: Point, k: real)
    ensures var p := Add(Add(c, a), Scale(Rot90(a), k));
      Dot(Sub(p, Add(c, a)), a) == 0.0 && Norm2(Sub(p, Add(c, a))) == k * k * Norm2(a)
    ensures var p := Add(Add(c, a), Scale(Rot90(a), -k));
      Dot(Sub(p, Add(c, a)), a) == 0.0 && Norm2(Sub(p, Add(c, a))) == k * k * Norm2(a)
  {
    assert Sub(Add(Add(c, a), Scale(Rot90(a), k)), Add(c, a)) == Scale(Rot90(a), k);
    assert Sub(Add(Add(c, a), Scale(Rot90(a), -k)), Add(c, a)) == Scale(Rot90(a), -k);
    RotatedOffset(a, k);
    RotatedOffset(a, -k);
    assert (-k) * (-k) == k * k;
  }

  /** The Riskus/Muller factor of arc_bezier_handles for the radius vectors a
      and b: 4/3 * (sqrt(2*q1*q2) - q2) / cross(a, b), with q1 = |a|^2 and
      q2 = q1 + a.b. */
  function K2(n: Numerics, a: Point, b: Point): real
    requires Cross(a, b) != 0.0
  {
    var q1 := Norm2(a);
    var q2 := q1 + Dot(a, b);
    4.0 / 3.0 * (n.sqrt(2.0 * q1 * q2) - q2) / Cross(a, b)
  }

  /** arc_bezier_handles: the two inner control points of the cubic Bezier
      that approximates the arc from p1 to p4 around c, with the Riskus/Muller
      factor k2 = 4/3 * (sqrt(2*q1*q2) - q2) / cross(a, b). A negative square
      root argument raises a math domain error; collinear a and b divide by
      zero. */
  function ArcBezierHandles(n: Numerics, p1: Point, p4: Point, c: Point): (r: Result<(Point, Point)>)
    requires ValidNumerics(n)
    ensures r.Raise? <==>
      var a := Sub(p1, c);
      2.0 * Norm2(a) * (Norm2(a) + Dot(a, Sub(p4, c))) < 0.0 || Cross(a, Sub(p4, c)) == 0.0
    ensures r.Raise? ==>
      var a := Sub(p1, c);
      r.error == (if 2.0 * Norm2(a) * (Norm2(a) + Dot(a, Sub(p4, c))) < 0.0
                  then MathDomainError else ZeroDivisionError)
    ensures r.Ok? ==> ArcHandles(n, p1, p4, c, r.value)
  {
    var a := Sub(p1, c);
    var b := Sub(p4, c);
    var q1 := Norm2(a);
    var q2 := q1 + Dot(a, b);
    if 2.0 * q1 * q2 < 0.0 then Raise(MathDomainError)
    else if Cross(a, b) == 0.0 then Raise(ZeroDivisionError)
    else
      ArcHandlesHold(n, p1, p4, c);
      Ok(BezierControls(c, a, b, K2(n, a, b)))
  }

  /** The handle pair h of the arc from p1 to p4 around c: the Bezier
      controls for the factor K2 (so the radius vectors are not collinear),
      each handle tangent to the circle at its end point and |K2| times the
      radius there long; equally long when the radii are equal. */
  ghost predicate ArcHandles(n: Numerics, p1: Point, p4: Point, c: Point, h: (Point, Point)) {
    var a := Sub(p1, c);
    var b := Sub(p4, c);
    Cross(a, b) != 0.0 && HandlePair(p1, p4, c, K2(n, a, b), h)
  }

  /** The handle pair h of the arc from p1 to p4 around c for the factor k. */
  ghost predicate HandlePair(p1: Point, p4: Point, c: Point, k: real, h: (Point, Point)) {
    var a := Sub(p1, c);
    var b := Sub(p4, c);
    && h == BezierControls(c, a, b, k)
    && Dot(Sub(h.0, p1), a) == 0.0 && Dot(Sub(h.1, p4), b) == 0.0
    && Norm2(Sub(h.0, p1)) == k * k * Norm2(a)
    && Norm2(Sub(h.1, p4)) == k * k * Norm2(b)
    && (Norm2(a) == Norm2(b) ==> Norm2(Sub(h.0, p1)) == Norm2(Sub(h.1, p4)))
  }

  lemma {:induction false} ArcHandlesHold(n: Numerics, p1: Point, p4: Point, c: Point)
    requires Cross(Sub(p1, c), Sub(p4, c)) != 0.0
    ensures ArcHandles(n, p1, p4, c, BezierControls(c, Sub(p1, c), Sub(p4, c), K2(n, Sub(p1, c), Sub(p4, c))))
  {
    HandlePairHolds(p1, p4, c, K2(n, Sub(p1, c), Sub(p4, c)));
  }

  lemma {:induction false} HandlePairHolds(p1: Point, p4: Point, c: Point, k: real)
    ensures HandlePair(p1, p4, c, k, BezierControls(c, Sub(p1, c), Sub(p4, c), k))
  {
    var a := Sub(p1, c);
    var b := Sub(p4, c);
    assert Add(c, a) == p1 && Add(c, b) == p4;
    var hs := BezierControls(c, a, b, k);
    assert Norm2(Sub(hs.0, p1)) == k * k * Norm2(a);
    assert Norm2(Sub(hs.1, p4)) == k * k * Norm2(b);
  }
}
