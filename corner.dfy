/** The decision procedure of one corner (angle, trim, budget), the
    replacement nodes (two or three), and the splice that puts them into the
    subpath in place of the corner node. */
module Corner {
  import opened Outcomes
  import opened Geometry
  import opened SuperNodes

  /** The tolerance of the angle tests. */
  const Eps: real := 0.00001

  function Abs(x: real): (r: real)
    ensures r >= 0.0 && (r == x || r == -x)
  {
    if x < 0.0 then -x else x
  }

  /** Why a corner was left as it is. */
  datatype SkipReason =
    | NoNeighbour          // first node of an open subpath, or the last node
    | FoldsBack            // the handles point the same way (or acos failed)
    | NearlyStraight       // the corner is within Eps of a straight line
    | NegativeTrim         // the computed trim is negative
    | OverBudget(limit: real)  // the trim exceeds maxTrimFactor * shorter handle

  datatype Decision = Reject(why: SkipReason) | Accept(alpha: real, trim: real)

  /** The stored length of each handle of a supernode is its length. */
  ghost predicate HandleLengths(sn: SuperNode) {
    && 0.0 <= sn.prevHlen && Norm2(sn.prevHandle) == sn.prevHlen * sn.prevHlen
    && 0.0 <= sn.nextHlen && Norm2(sn.nextHandle) == sn.nextHlen * sn.nextHlen
  }

  lemma ProductNonZero(a: real, b: real, p: real)
    requires p == a * b && p != 0.0
    ensures a != 0.0 && b != 0.0
  {
  }

  lemma QuotientNonNegative(r: real, t: real)
    requires r >= 0.0 && t > 0.0
    ensures r / t >= 0.0
  {
  }

  lemma QuotientTimesDivisor(r: real, t: real)
    requires t != 0.0
    ensures (r / t) * t == r
  {
  }

  /** math.acos of the cosine of the angle between two handle vectors; None
      when a handle is zero, where the source catches the division by zero.
      The source also catches a math domain error of acos, but over the reals
      the cosine always lies in [-1, 1] (Geometry.CosineInRange), so two
      non-zero handles always have an angle. */
  function Angle(n: Numerics, a: Point, b: Point): (r: Option<real>)
    requires ValidNumerics(n)
    ensures r.Some? <==> Norm2(a) != 0.0 && Norm2(b) != 0.0
    ensures r.Some? ==> 0.0 <= r.value <= n.pi
    ensures r.Some? ==> r.value == n.acos(Dot(a, b) / (Length(n, a) * Length(n, b)))
  {
    var la := Length(n, a);
    var lb := Length(n, b);
    var den := la * lb;
    if den == 0.0 then
      ZeroFactor(la, lb);
      None
    else
      ProductNonZero(la, lb, den);
      CosineInRange(a, b, la, lb);
      var cosine := Dot(a, b) / den;
      assert -1.0 <= cosine <= 1.0;
      assert 0.0 <= n.acos(cosine) <= n.pi;
      assert cosine == Dot(a, b) / (Length(n, a) * Length(n, b));
      Some(n.acos(cosine))
  }

  lemma ZeroFactor(a: real, b: real)
    requires a * b == 0.0
    ensures a == 0.0 || b == 0.0
  {
  }

  /** The trim leaves the rest of the shorter handle to the neighbours: it is
      at most maxTrimFactor times that handle's length. */
  ghost predicate WithinBudget(trim: real, maxTrimFactor: real, sn: SuperNode) {
    trim <= maxTrimFactor * Min(sn.prevHlen, sn.nextHlen)
  }

  /** A circle of the radius fits into the corner with angle alpha between
      its handles when the trim is radius / tan(alpha / 2). */
  ghost predicate Fits(n: Numerics, alpha: real, trim: real, radius: real) {
    trim * n.tan(0.5 * alpha) == radius
  }

  /** The trim for an angle strictly between Eps and pi - Eps:
      radius / tan(alpha / 2), refused when negative or above limit. */
  function Budget(n: Numerics, alpha: real, radius: real, limit: real): (d: Decision)
    requires ValidNumerics(n) && Eps <= alpha <= n.pi - Eps
    ensures d.Accept? ==> d.alpha == alpha && 0.0 <= d.trim <= limit
    ensures d.Accept? ==> Fits(n, alpha, d.trim, radius)
    ensures d.Reject? ==> d.why == NegativeTrim || d.why == OverBudget(limit)
    ensures d == Reject(OverBudget(limit)) && limit >= 0.0 ==> radius > 0.0
    ensures d == Reject(NegativeTrim) ==> radius < 0.0
    ensures d.Accept? <==> 0.0 <= radius / n.tan(0.5 * alpha) <= limit
    ensures d == Reject(NegativeTrim) <==> radius / n.tan(0.5 * alpha) < 0.0
  {
    var t := n.tan(0.5 * alpha);
    assert t > 0.0;
    var trim := radius / t;
    if trim < 0.0 then
      assert radius < 0.0 by {
        if radius >= 0.0 { QuotientNonNegative(radius, t); }
      }
      Reject(NegativeTrim)
    else if trim > limit then
      assert limit >= 0.0 ==> radius > 0.0 by {
        if radius <= 0.0 { QuotientNonNegative(-radius, t); }
      }
      Reject(OverBudget(limit))
    else
      QuotientTimesDivisor(radius, t);
      Accept(alpha, trim)
  }

  /** The decision procedure of subpath_round_corner: an angle below Eps (or
      no angle at all) is a fold-back, one within Eps of pi is left alone, and
      otherwise the trim must fit maxTrimFactor * min(a_len, b_len). */
  function Decide(n: Numerics, sn: SuperNode, radius: real, maxTrimFactor: real): (d: Decision)
    requires ValidNumerics(n) && HandleLengths(sn)
    ensures d.Accept? ==> Eps <= d.alpha <= n.pi - Eps
    ensures d.Accept? ==> 0.0 <= d.trim && WithinBudget(d.trim, maxTrimFactor, sn)
    ensures d.Accept? ==> Fits(n, d.alpha, d.trim, radius)
    ensures d.Accept? ==> sn.prevHlen > 0.0 && sn.nextHlen > 0.0
    ensures d.Reject? && d.why.OverBudget? ==>
      d.why.limit == maxTrimFactor * Min(sn.prevHlen, sn.nextHlen) && (maxTrimFactor >= 0.0 ==> radius > 0.0)
    ensures d == Reject(NegativeTrim) ==> radius < 0.0
    ensures d.Reject? ==> !d.why.NoNeighbour?
    ensures var a := Angle(n, sn.prevHandle, sn.nextHandle);
      d == Reject(FoldsBack) <==> a.None? || a.value < Eps
    ensures var a := Angle(n, sn.prevHandle, sn.nextHandle);
      d == Reject(NearlyStraight) <==> a.Some? && Eps <= a.value && Abs(a.value - n.pi) < Eps
    ensures var a := Angle(n, sn.prevHandle, sn.nextHandle);
      a.Some? && Eps <= a.value && Abs(a.value - n.pi) >= Eps ==>
        d == Budget(n, a.value, radius, maxTrimFactor * Min(sn.prevHlen, sn.nextHlen))
  {
    match Angle(n, sn.prevHandle, sn.nextHandle)
    case None => Reject(FoldsBack)
    case Some(alpha) =>
      if alpha < Eps then Reject(FoldsBack)
      else if Abs(alpha - n.pi) < Eps then Reject(NearlyStraight)
      else
        PositiveLength(sn.prevHandle, sn.prevHlen);
        PositiveLength(sn.nextHandle, sn.nextHlen);
        Budget(n, alpha, radius, maxTrimFactor * Min(sn.prevHlen, sn.nextHlen))
  }

  lemma PositiveLength(h: Point, hlen: real)
    requires Norm2(h) != 0.0
    requires 0.0 <= hlen && Norm2(h) == hlen * hlen
    ensures hlen > 0.0
  {
  }

  /** p lies d away from q. */
  ghost predicate AtDistance(p: Point, q: Point, d: real) {
    Norm2(Sub(p, q)) == d * d
  }

  /** The point trim away from the anchor along a handle of length hlen. */
  function TrimPoint(anchor: Point, handle: Point, hlen: real, trim: real): (p: Point)
    requires hlen != 0.0 && Norm2(handle) == hlen * hlen
    ensures AtDistance(p, anchor, trim)
    ensures trim == 0.0 ==> p == anchor
    ensures Cross(Sub(p, anchor), handle) == 0.0
    ensures Dot(Sub(p, anchor), handle) == trim * hlen
  {
    var p := Add(anchor, Scale(handle, trim / hlen));
    assert Sub(p, anchor) == Scale(handle, trim / hlen);
    UnitScale(handle, hlen, trim);
    ScaleAlong(handle, trim / hlen);
    QuotientTimesSquare(trim, hlen);
    p
  }

  /** The two trim points of an accepted corner. */
  ghost predicate Trimmable(sn: SuperNode) {
    HandleLengths(sn) && sn.prevHlen > 0.0 && sn.nextHlen > 0.0
  }

  function PrevTrim(sn: SuperNode, trim: real): Point
    requires Trimmable(sn)
  {
    TrimPoint(sn.anchor, sn.prevHandle, sn.prevHlen, trim)
  }

  function NextTrim(sn: SuperNode, trim: real): Point
    requires Trimmable(sn)
  {
    TrimPoint(sn.anchor, sn.nextHandle, sn.nextHlen, trim)
  }

  /** A control point h at p is tangent to the circle around c through p. */
  ghost predicate Tangent(h: Point, p: Point, c: Point) {
    Dot(Sub(h, p), Sub(p, c)) == 0.0
  }

  function Last(s: seq<Node>): Node
    requires |s| > 0
  {
    s[|s| - 1]
  }

  /** An outer handle of the corner node is kept, unless it is absent (equal
      to the anchor); then it moves with the trim point. */
  function OuterHandle(own: Point, anchor: Point, trimPt: Point): (h: Point)
    ensures own == anchor ==> h == trimPt
    ensures own != anchor ==> h == own
  {
    if own == anchor then trimPt else own
  }

  /** The nodes that replace an accepted corner. With cut, or when the angle
      between the handles is at least a right angle, two nodes: the trim
      points, joined by a straight segment (cut) or by one Bezier arc. Else
      three nodes: the arc is split at its midpoint m. The arc centre and
      midpoint are computed in every mode, so a division by zero there aborts
      even a cut. */
  function Fillet(n: Numerics, t: Node, sn: SuperNode, alpha: real, trim: real,
                  radius: real, cut: bool): (r: Result<seq<Node>>)
    requires ValidNumerics(n) && Trimmable(sn) && t.anchor == sn.anchor
    ensures r.Ok? ==> |r.value| == (if alpha >= 0.5 * n.pi || cut then 2 else 3)
    ensures r.Ok? ==> r.value[0].anchor == PrevTrim(sn, trim) && Last(r.value).anchor == NextTrim(sn, trim)
    ensures r.Ok? ==> r.value[0].inHandle == OuterHandle(t.inHandle, t.anchor, PrevTrim(sn, trim))
    ensures r.Ok? ==> Last(r.value).outHandle == OuterHandle(t.outHandle, t.anchor, NextTrim(sn, trim))
    ensures r.Ok? && cut ==>
      r.value[0].outHandle == r.value[0].anchor && r.value[1].inHandle == r.value[1].anchor
    ensures ArcCenterMid(n, sn.anchor, PrevTrim(sn, trim), NextTrim(sn, trim), radius, trim).Raise?
      ==> r == Raise(ZeroDivisionError)
    ensures cut ==>
      (r.Raise? <==> ArcCenterMid(n, sn.anchor, PrevTrim(sn, trim), NextTrim(sn, trim), radius, trim).Raise?)
    ensures r.Raise? ==> r.error == ZeroDivisionError || r.error == MathDomainError
    ensures r.Ok? && !cut ==>
      var cm := ArcCenterMid(n, sn.anchor, PrevTrim(sn, trim), NextTrim(sn, trim), radius, trim);
      cm.Ok? && Tangent(r.value[0].outHandle, r.value[0].anchor, cm.value.0)
      && Tangent(Last(r.value).inHandle, Last(r.value).anchor, cm.value.0)
    ensures r.Ok? && |r.value| == 3 ==>
      var cm := ArcCenterMid(n, sn.anchor, PrevTrim(sn, trim), NextTrim(sn, trim), radius, trim);
      cm.Ok? && r.value[1].anchor == cm.value.1
      && Tangent(r.value[1].inHandle, r.value[1].anchor, cm.value.0)
      && Tangent(r.value[1].outHandle, r.value[1].anchor, cm.value.0)
    ensures !cut ==> (r.Raise? <==> ArcRaises(n, sn, alpha, trim, radius))
    ensures r.Ok? && !cut ==>
      var cm := ArcCenterMid(n, sn.anchor, PrevTrim(sn, trim), NextTrim(sn, trim), radius, trim);
      && cm.Ok?
      && (alpha >= 0.5 * n.pi ==>
            ArcBezierHandles(n, PrevTrim(sn, trim), NextTrim(sn, trim), cm.value.0)
            == Ok((r.value[0].outHandle, r.value[1].inHandle)))
      && (alpha < 0.5 * n.pi ==>
            && ArcBezierHandles(n, PrevTrim(sn, trim), cm.value.1, cm.value.0)
               == Ok((r.value[0].outHandle, r.value[1].inHandle))
            && ArcBezierHandles(n, cm.value.1, NextTrim(sn, trim), cm.value.0)
               == Ok((r.value[1].outHandle, r.value[2].inHandle)))
  {
    var p1 := PrevTrim(sn, trim);
    var p7 := NextTrim(sn, trim);
    var prevH := OuterHandle(t.inHandle, t.anchor, p1);
    var nextH := OuterHandle(t.outHandle, t.anchor, p7);
    match ArcCenterMid(n, sn.anchor, p1, p7, radius, trim)
    case Raise(e) => Raise(e)
    case Ok((c, m)) =>
      if cut then Ok([Node(prevH, p1, p1), Node(p7, p7, nextH)])
      else if alpha >= 0.5 * n.pi then OneArc(n, prevH, p1, p7, nextH, c)
      else TwoArcs(n, prevH, p1, m, p7, nextH, c)
  }

  /** When the arc mode of Fillet raises: the centre divides by zero, or
      arc_bezier_handles raises on the one arc (an angle of at least a right
      angle between the handles) or on either of the two half arcs. */
  ghost predicate ArcRaises(n: Numerics, sn: SuperNode, alpha: real, trim: real, radius: real)
    requires ValidNumerics(n) && Trimmable(sn)
  {
    var p1 := PrevTrim(sn, trim);
    var p7 := NextTrim(sn, trim);
    var cm := ArcCenterMid(n, sn.anchor, p1, p7, radius, trim);
    || cm.Raise?
    || (alpha >= 0.5 * n.pi && ArcBezierHandles(n, p1, p7, cm.value.0).Raise?)
    || (alpha < 0.5 * n.pi && (ArcBezierHandles(n, p1, cm.value.1, cm.value.0).Raise?
                               || ArcBezierHandles(n, cm.value.1, p7, cm.value.0).Raise?))
  }

  /** Two nodes joined by one Bezier arc around c. */
  function OneArc(n: Numerics, prevH: Point, p1: Point, p7: Point, nextH: Point, c: Point): (r: Result<seq<Node>>)
    requires ValidNumerics(n)
    ensures r.Ok? ==> |r.value| == 2 && r.value[0].inHandle == prevH && r.value[0].anchor == p1
    ensures r.Ok? ==> r.value[1].anchor == p7 && r.value[1].outHandle == nextH
    ensures r.Ok? ==> Tangent(r.value[0].outHandle, p1, c) && Tangent(r.value[1].inHandle, p7, c)
    ensures r.Raise? ==> r.error == ZeroDivisionError || r.error == MathDomainError
    ensures r.Ok? <==> ArcBezierHandles(n, p1, p7, c).Ok?
    ensures r.Ok? ==> (r.value[0].outHandle, r.value[1].inHandle) == ArcBezierHandles(n, p1, p7, c).value
  {
    match ArcBezierHandles(n, p1, p7, c)
    case Raise(e) => Raise(e)
    case Ok((p2, p6)) => Ok([Node(prevH, p1, p2), Node(p6, p7, nextH)])
  }

  /** Three nodes joined by two Bezier arcs around c that meet at m. */
  function TwoArcs(n: Numerics, prevH: Point, p1: Point, m: Point, p7: Point, nextH: Point, c: Point): (r: Result<seq<Node>>)
    requires ValidNumerics(n)
    ensures r.Ok? ==> |r.value| == 3 && r.value[0].inHandle == prevH && r.value[0].anchor == p1
    ensures r.Ok? ==> r.value[1].anchor == m && r.value[2].anchor == p7 && r.value[2].outHandle == nextH
    ensures r.Ok? ==> Tangent(r.value[0].outHandle, p1, c) && Tangent(r.value[2].inHandle, p7, c)
    ensures r.Ok? ==> Tangent(r.value[1].inHandle, m, c) && Tangent(r.value[1].outHandle, m, c)
    ensures r.Raise? ==> r.error == ZeroDivisionError || r.error == MathDomainError
    ensures r.Ok? <==> ArcBezierHandles(n, p1, m, c).Ok? && ArcBezierHandles(n, m, p7, c).Ok?
    ensures r.Ok? ==> (r.value[0].outHandle, r.value[1].inHandle) == ArcBezierHandles(n, p1, m, c).value
    ensures r.Ok? ==> (r.value[1].outHandle, r.value[2].inHandle) == ArcBezierHandles(n, m, p7, c).value
  {
    match ArcBezierHandles(n, p1, m, c)
    case Raise(e) => Raise(e)
    case Ok((p2, p3)) =>
      match ArcBezierHandles(n, m, p7, c)
      case Raise(e) => Raise(e)
      case Ok((p5, p6)) => Ok([Node(prevH, p1, p2), Node(p3, m, p5), Node(p6, p7, nextH)])
  }

  /** The subpath with the node at idx replaced by nodes. When the first node
      of a closed subpath is replaced, the last node is overwritten with the
      new first node so that the subpath stays closed. */
  function Splice(sp: Subpath, idx: nat, nodes: seq<Node>): (s: Subpath)
    requires idx + 1 < |sp| && |nodes| > 0
    ensures |s| == |sp| + |nodes| - 1
    ensures forall i :: 0 <= i < idx ==> s[i] == sp[i]
    ensures forall j :: 0 <= j < |nodes| ==> s[idx + j] == nodes[j]
    ensures forall i :: idx < i < |sp| - 1 ==> s[i + |nodes| - 1] == sp[i]
    ensures s[|s| - 1] == (if idx == 0 then nodes[0] else sp[|sp| - 1])
  {
    var s := sp[..idx] + nodes + sp[idx + 1..];
    if idx == 0 then s[|s| - 1 := s[0]] else s
  }

  /** A splice keeps a closed subpath closed and an open one open, except
      that a splice at index 0 always closes the result. */
  lemma {:induction false} SpliceClosed(sp: Subpath, idx: nat, nodes: seq<Node>)
    requires idx + 1 < |sp| && |nodes| > 0
    ensures Closed(Splice(sp, idx, nodes)) <==> Closed(sp) || idx == 0
  {
    var s := Splice(sp, idx, nodes);
    if idx > 0 {
      assert s[0] == sp[0];
    }
  }

  /** s is sp with the node at idx replaced by k >= 1 nodes: the nodes before
      it and after it (but the last) are kept in order; the last node is kept
      too, except that replacing the first node also overwrites the last with
      the new first node; and s is closed exactly when sp was or when the
      replaced node was the first. */
  ghost predicate Replaced(sp: Subpath, idx: nat, s: Subpath, k: nat)
    requires idx < |sp|
  {
    && k >= 1
    && |s| == |sp| + k - 1
    && s[|s| - 1] == (if idx == 0 then s[idx] else sp[|sp| - 1])
    && (forall i :: 0 <= i < idx ==> s[i] == sp[i])
    && (forall i :: idx < i < |sp| - 1 ==> s[i + k - 1] == sp[i])
    && (Closed(s) <==> Closed(sp) || idx == 0)
  }

  /** The options of the run that the corner code reads. */
  datatype Settings = Settings(radius: real, maxTrimFactor: real, cut: bool)

  /** What rounding one corner does: it replaces the subpath, leaves it as it
      is for a reason, or raises. */
  datatype CornerOutcome =
    | Rounded(sp: Subpath, alpha: real, trim: real)
    | Skipped(why: SkipReason)
    | Raised(error: PyError)

  /** subpath_round_corner on an index: build the supernode, decide, make the
      replacement nodes and splice them in. */
  function RoundAt(n: Numerics, sp: Subpath, idx: nat, cfg: Settings): (o: CornerOutcome)
    requires ValidNumerics(n)
    ensures o.Rounded? ==> Eps <= o.alpha <= n.pi - Eps && 0.0 <= o.trim
    ensures o.Rounded? ==> Fits(n, o.alpha, o.trim, cfg.radius)
    ensures o.Rounded? ==>
      var b := BuildSuperNode(n, sp, idx, cfg.radius);
      b.Built? && WithinBudget(o.trim, cfg.maxTrimFactor, b.sn)
    ensures o.Rounded? ==> Replaced(sp, idx, o.sp, if o.alpha >= 0.5 * n.pi || cfg.cut then 2 else 3)
    ensures o.Rounded? ==> idx < |sp| && Closed(o.sp) == Closed(sp)
    ensures o.Rounded? ==> AtDistance(o.sp[idx].anchor, sp[idx].anchor, o.trim)
    ensures var b := BuildSuperNode(n, sp, idx, cfg.radius);
      && (b.OutOfRange? ==> o == Raised(IndexError))
      && (b.AtBoundary? ==> o == Skipped(NoNeighbour))
      && (b.TooShort? ==> o == Raised(UnboundLocalError(b.len)))
      && (b.Built? ==> HandleLengths(b.sn) && idx + 1 < |sp| && b.sn.anchor == sp[idx].anchor
                       && o == RoundBuilt(n, sp, idx, b.sn, cfg))
  {
    match BuildSuperNode(n, sp, idx, cfg.radius)
    case OutOfRange => Raised(IndexError)
    case AtBoundary => Skipped(NoNeighbour)
    case TooShort(len) => Raised(UnboundLocalError(len))
    case Built(sn) =>
      WellFormedLengths(sp, idx, cfg.radius, sn);
      RoundBuilt(n, sp, idx, sn, cfg)
  }

  lemma WellFormedLengths(sp: Subpath, idx: nat, radius: real, sn: SuperNode)
    requires WellFormed(sp, idx, radius, sn)
    ensures HandleLengths(sn) && sn.anchor == sp[idx].anchor && idx + 1 < |sp|
    ensures idx == 0 ==> Closed(sp)
  {
  }

  /** The part of subpath_round_corner after the supernode exists. A rounded
      corner keeps its trim within the budget; the subpath grows by one node
      (cut, or an angle of at least a right angle between the handles) or by
      two; the nodes before and after the corner are kept in order; the first
      new anchor lies trim away from the old corner; and the result is closed
      exactly when the subpath was, or when the corner was its first node. */
  function RoundBuilt(n: Numerics, sp: Subpath, idx: nat, sn: SuperNode, cfg: Settings): (o: CornerOutcome)
    requires ValidNumerics(n) && HandleLengths(sn)
    requires idx + 1 < |sp| && sn.anchor == sp[idx].anchor
    ensures o.Rounded? ==> Eps <= o.alpha <= n.pi - Eps && 0.0 <= o.trim
    ensures o.Rounded? ==> Fits(n, o.alpha, o.trim, cfg.radius)
    ensures o.Rounded? ==> WithinBudget(o.trim, cfg.maxTrimFactor, sn)
    ensures o.Rounded? ==> Replaced(sp, idx, o.sp, if o.alpha >= 0.5 * n.pi || cfg.cut then 2 else 3)
    ensures o.Rounded? ==> AtDistance(o.sp[idx].anchor, sp[idx].anchor, o.trim)
    ensures o.Skipped? ==> !o.why.NoNeighbour?
    ensures o.Skipped? <==> Decide(n, sn, cfg.radius, cfg.maxTrimFactor).Reject?
    ensures o.Skipped? ==> o.why == Decide(n, sn, cfg.radius, cfg.maxTrimFactor).why
    ensures var d := Decide(n, sn, cfg.radius, cfg.maxTrimFactor);
      o.Rounded? <==> d.Accept? && Fillet(n, sp[idx], sn, d.alpha, d.trim, cfg.radius, cfg.cut).Ok?
    ensures var d := Decide(n, sn, cfg.radius, cfg.maxTrimFactor);
      o.Rounded? ==> o.sp == Splice(sp, idx, Fillet(n, sp[idx], sn, d.alpha, d.trim, cfg.radius, cfg.cut).value)
    ensures var d := Decide(n, sn, cfg.radius, cfg.maxTrimFactor);
      o.Raised? ==> d.Accept? && o.error == Fillet(n, sp[idx], sn, d.alpha, d.trim, cfg.radius, cfg.cut).error
  {
    match Decide(n, sn, cfg.radius, cfg.maxTrimFactor)
    case Reject(why) => Skipped(why)
    case Accept(alpha, trim) => Place(n, sp, idx, sn, cfg, alpha, trim)
  }

  /** An accepted corner: make the replacement nodes and splice them in. */
  function Place(n: Numerics, sp: Subpath, idx: nat, sn: SuperNode, cfg: Settings,
                 alpha: real, trim: real): (o: CornerOutcome)
    requires ValidNumerics(n) && Trimmable(sn)
    requires idx + 1 < |sp| && sn.anchor == sp[idx].anchor
    ensures !o.Skipped?
    ensures o.Rounded? ==> o.alpha == alpha && o.trim == trim
    ensures o.Rounded? ==> Replaced(sp, idx, o.sp, if alpha >= 0.5 * n.pi || cfg.cut then 2 else 3)
    ensures o.Rounded? ==> AtDistance(o.sp[idx].anchor, sp[idx].anchor, trim)
    ensures o.Rounded? <==> Fillet(n, sp[idx], sn, alpha, trim, cfg.radius, cfg.cut).Ok?
    ensures o.Rounded? ==> o.sp == Splice(sp, idx, Fillet(n, sp[idx], sn, alpha, trim, cfg.radius, cfg.cut).value)
    ensures o.Raised? ==> o.error == Fillet(n, sp[idx], sn, alpha, trim, cfg.radius, cfg.cut).error
  {
    match Fillet(n, sp[idx], sn, alpha, trim, cfg.radius, cfg.cut)
    case Raise(e) => Raised(e)
    case Ok(nodes) =>
      SpliceReplaced(sp, idx, nodes);
      Rounded(Splice(sp, idx, nodes), alpha, trim)
  }

  /** A splice replaces the node at idx by the new nodes, and the first new
      node takes its place. */
  lemma SpliceReplaced(sp: Subpath, idx: nat, nodes: seq<Node>)
    requires idx + 1 < |sp| && |nodes| > 0
    ensures Replaced(sp, idx, Splice(sp, idx, nodes), |nodes|)
    ensures Splice(sp, idx, nodes)[idx] == nodes[0]
  {
    SpliceClosed(sp, idx, nodes);
  }

  /** An index past the end raises IndexError, and nothing else does. */
  lemma {:induction false} IndexErrorIffOutOfRange(n: Numerics, sp: Subpath, idx: nat, cfg: Settings)
    requires ValidNumerics(n)
    ensures RoundAt(n, sp, idx, cfg) == Raised(IndexError) <==> idx >= |sp|
  {
    var b := BuildSuperNode(n, sp, idx, cfg.radius);
    if b.Built? {
      WellFormedLengths(sp, idx, cfg.radius, b.sn);
      var d := Decide(n, b.sn, cfg.radius, cfg.maxTrimFactor);
      if d.Accept? {
        var f := Fillet(n, sp[idx], b.sn, d.alpha, d.trim, cfg.radius, cfg.cut);
        assert f.Raise? ==> f.error != IndexError;
      }
    }
  }

  /** The only exceptions a corner raises: IndexError for an index past the
      end, UnboundLocalError for a short corner, and the two arithmetic
      errors of the fillet. */
  lemma {:induction false} RoundAtErrors(n: Numerics, sp: Subpath, idx: nat, cfg: Settings)
    requires ValidNumerics(n)
    ensures var o := RoundAt(n, sp, idx, cfg);
      o.Raised? ==>
        || o.error == IndexError || o.error.UnboundLocalError?
        || o.error == ZeroDivisionError || o.error == MathDomainError
  {
    var b := BuildSuperNode(n, sp, idx, cfg.radius);
    if b.Built? {
      WellFormedLengths(sp, idx, cfg.radius, b.sn);
      var d := Decide(n, b.sn, cfg.radius, cfg.maxTrimFactor);
      if d.Accept? {
        var f := Fillet(n, sp[idx], b.sn, d.alpha, d.trim, cfg.radius, cfg.cut);
        assert f.Raise? ==> f.error == ZeroDivisionError || f.error == MathDomainError;
      }
    }
  }

  /** The last node, and the first node of an open subpath, have no
      neighbour on one side and are left alone; no other node is. */
  lemma {:induction false} NoNeighbourIffEnd(n: Numerics, sp: Subpath, idx: nat, cfg: Settings)
    requires ValidNumerics(n)
    ensures RoundAt(n, sp, idx, cfg) == Skipped(NoNeighbour) <==>
      idx < |sp| && (idx == |sp| - 1 || (idx == 0 && !Closed(sp)))
  {
    var b := BuildSuperNode(n, sp, idx, cfg.radius);
    if b.Built? {
      WellFormedLengths(sp, idx, cfg.radius, b.sn);
    }
  }

  /** A neighbour distance or handle shorter than the radius aborts the run
      with UnboundLocalError, carrying that length; no other step raises it. */
  lemma {:induction false} ShortCornerAborts(n: Numerics, sp: Subpath, idx: nat, cfg: Settings)
    requires ValidNumerics(n)
    ensures var o := RoundAt(n, sp, idx, cfg);
      (o.Raised? && o.error.UnboundLocalError?) <==> BuildSuperNode(n, sp, idx, cfg.radius).TooShort?
    ensures var o := RoundAt(n, sp, idx, cfg);
      o.Raised? && o.error.UnboundLocalError? ==> 0.0 <= o.error.shortLen < cfg.radius
  {
    var b := BuildSuperNode(n, sp, idx, cfg.radius);
    if b.Built? {
      WellFormedLengths(sp, idx, cfg.radius, b.sn);
      var d := Decide(n, b.sn, cfg.radius, cfg.maxTrimFactor);
      if d.Accept? {
        var f := Fillet(n, sp[idx], b.sn, d.alpha, d.trim, cfg.radius, cfg.cut);
        assert f.Raise? ==> !f.error.UnboundLocalError?;
      }
    }
  }

  /** A zero radius never rounds a corner: an accepted corner has trim 0, its
      trim points coincide with the anchor, and the arc centre divides by
      zero. */
  lemma {:induction false} ZeroRadiusNeverRounds(n: Numerics, sp: Subpath, idx: nat, cfg: Settings)
    requires ValidNumerics(n) && cfg.radius == 0.0
    ensures !RoundAt(n, sp, idx, cfg).Rounded?
  {
    var b := BuildSuperNode(n, sp, idx, cfg.radius);
    if b.Built? {
      WellFormedLengths(sp, idx, cfg.radius, b.sn);
      ZeroRadiusBuilt(n, sp, idx, b.sn, cfg);
    }
  }

  lemma {:induction false} ZeroRadiusBuilt(n: Numerics, sp: Subpath, idx: nat, sn: SuperNode, cfg: Settings)
    requires ValidNumerics(n) && HandleLengths(sn) && cfg.radius == 0.0
    requires idx + 1 < |sp| && sn.anchor == sp[idx].anchor
    ensures Decide(n, sn, cfg.radius, cfg.maxTrimFactor).Accept? ==>
      RoundBuilt(n, sp, idx, sn, cfg) == Raised(ZeroDivisionError)
    ensures !RoundBuilt(n, sp, idx, sn, cfg).Rounded?
  {
    var d := Decide(n, sn, cfg.radius, cfg.maxTrimFactor);
    if d.Accept? {
      ZeroRadiusZeroTrim(n, d.alpha, d.trim);
      FilletZeroTrim(n, sp[idx], sn, d.alpha, cfg.radius, cfg.cut);
    }
  }

  /** With radius 0 the only trim that fits is 0. */
  lemma {:induction false} ZeroRadiusZeroTrim(n: Numerics, alpha: real, trim: real)
    requires ValidNumerics(n) && Eps <= alpha <= n.pi - Eps
    requires Fits(n, alpha, trim, 0.0)
    ensures trim == 0.0
  {
    var t := n.tan(0.5 * alpha);
    assert t > 0.0;
    ZeroProduct(trim, t);
  }

  /** A zero trim puts both trim points on the anchor, and the arc centre
      then divides by zero, in every mode. */
  lemma {:induction false} FilletZeroTrim(n: Numerics, t: Node, sn: SuperNode, alpha: real, radius: real, cut: bool)
    requires ValidNumerics(n) && Trimmable(sn) && t.anchor == sn.anchor
    ensures Fillet(n, t, sn, alpha, 0.0, radius, cut) == Raise(ZeroDivisionError)
  {
    assert PrevTrim(sn, 0.0) == sn.anchor;
    assert NextTrim(sn, 0.0) == sn.anchor;
    CentreAtAnchor(n, sn.anchor, radius);
  }

  /** Trim points on the anchor leave no direction for the centre. */
  lemma {:induction false} CentreAtAnchor(n: Numerics, anchor: Point, radius: real)
    requires ValidNumerics(n)
    ensures ArcCenterMid(n, anchor, anchor, anchor, radius, 0.0) == Raise(ZeroDivisionError)
  {
    assert Add(Sub(anchor, anchor), Sub(anchor, anchor)) == Point(0.0, 0.0);
  }

  lemma ZeroProduct(a: real, t: real)
    requires t > 0.0 && a * t == 0.0
    ensures a == 0.0
  {
  }

}
