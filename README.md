# Rounded corners, modelled in Dafny

This project models the corner-rounding engine of the Inkscape extension
`round_corners.py`. The user selects path nodes. For each selected node the
extension:

- takes the node's neighbours and handles (the "supernode");
- decides whether a circle of the requested radius fits into the corner;
- computes the two trim points, the arc centre and the arc midpoint;
- replaces the corner node by two or three new nodes, whose Bezier handles
  approximate the arc (or, in "line" mode, cut it straight).

A batch driver visits the selected node keys (`path:subpath:node`) in
sorted order. It keeps a per-subpath table of how many nodes it has already
inserted, so that later indices of the same subpath can be shifted.

Modules:

- `Outcomes` (outcomes.dfy): the Python exceptions the code can raise,
  `Result`, `Option`, `Min`.
- `Geometry` (geometry.dfy): plane vectors; `math.sqrt`, `math.acos`,
  `math.tan` and `math.pi` as given values with stated facts (`Numerics`,
  `ValidNumerics`); `arc_c_m_from_super_node` and `arc_bezier_handles`.
- `SuperNodes` (supernode.dfy): nodes, subpaths, closure, and `super_node`.
- `Corner` (corner.dfy): `subpath_round_corner`, covering the decision, the
  trim points, the replacement nodes and the splice, and what it guarantees
  about the rounded subpath.
- `Selection` (selection.dfy): the string handling of the driver:
  `str.split(':')`, `int()` on a field, the `in` substring test, and
  `sorted` on the keys.
- `Engine` (engine.dfy): `round_corner` and `effect` as the pure functions
  `CornerStep` and `Run`, and the extension object as the class
  `RoundedCorners`. Its fields (counters, offset table, document) are
  updated in place by its methods. The class reaches
  `subpath_round_corner` through the constant function field `round`;
  its constructor fixes `round` to `Corner.RoundAt` (`Faithful`).

How the code behaves where a reader might expect otherwise (the model
follows the code):

- The four "too short" branches of `super_node` execute
  `skipped_small_count += 1` on a name that is not bound as a local
  (round_corners.py:347, 356, 370, 378). Python raises `UnboundLocalError`
  there, after `skipped_small_len` has already been lowered. The model
  therefore ends the run with `Raised(UnboundLocalError(len))`. It does not
  count the corner as skipped (`Corner.ShortCornerAborts`).
- `self.options.method in ('line')` (round_corners.py:231) tests for a
  substring of `"line"`, not membership in a tuple. `"in"` and the empty
  string select the straight cut too; `"arc+cross"` does not
  (`Selection.BevelOptions`).
- `sorted(...)` (round_corners.py:240) compares the keys as strings, so
  `"p:0:10"` is processed before `"p:0:2"` (`Selection.TenBeforeTwo`). After
  node 10 has grown the subpath, node 2 is then shifted by that growth as
  well, although it lies before the edit (`Engine.SameSubpathShift`). The offset table is keyed by the
  subpath field as written, so `p:01` and `p:1` name the same subpath but
  keep separate offsets (`Selection.LeadingZeroSameIndex`).
- `arc_bezier_handles` computes `p2 = c + a + k2 * rot90(a)` and
  `p3 = c + b - k2 * rot90(b)` (round_corners.py:443-446). The tangency
  proved for the handles holds for every `k2`, so it holds whatever the sign
  convention.
- A zero radius never rounds a corner. Every fitting trim is 0, so the
  trim points are the anchor and the arc centre divides by zero. The run
  then ends with `ZeroDivisionError`, even in "line" mode, because the
  centre is computed before the mode is looked at
  (`Corner.ZeroRadiusNeverRounds`).
- A negative trim needs a negative radius (`Corner.Decide`), and `effect`
  always takes the radius by absolute value (`Engine.Options`). So the
  negative-trim branch is only reachable by calling
  `subpath_round_corner` directly.

## Model

| member | source | states |
|---|---|---|
| Outcomes.Min | round_corners.py:487 | the result is the smaller of the two arguments |
| Geometry.Length | round_corners.py:330-331 | `math.sqrt(x*x + y*y)` is non-negative, squares to the squared norm, and is zero exactly for the zero vector |
| Geometry.UnitScale | round_corners.py:381-388 | scaling a vector of length l by k / l gives a vector whose squared length is k² |
| Geometry.ScaleAlong | round_corners.py:381-388 | a multiple k of a vector is parallel to it, and its projection on it is k times its squared length |
| Geometry.ArcCenterMid | round_corners.py:393-421 | raises ZeroDivisionError exactly when the two trim vectors sum to zero (v = 0); otherwise the centre c and midpoint m lie on the line through the anchor along v, c on the side v points to, at signed distance cdist = sqrt(radius² + trim²) along v (so \|c − anchor\|² = radius² + trim²) and m at cdist − radius, which makes \|c − m\| = radius |
| Geometry.CenterMidFacts | round_corners.py:409-419 | the algebra of the centre and midpoint formulas: c at distance cdist and m at cdist − radius along v, both parallel to v, c − m of length radius |
| Geometry.RotatedOffset | round_corners.py:443-446 | k times the quarter-turned vector is perpendicular to the vector and has squared length k² times its squared length |
| Geometry.BezierControls | round_corners.py:443-446 | for every k2, each control point's offset from its end point is perpendicular to the radius there (tangency), with squared length k2² · radius² |
| Geometry.HandleAt | round_corners.py:443-446 | one control point, moved either way along the quarter-turned radius: tangent at its end point, with squared length k² times the radius² |
| Geometry.ArcBezierHandles | round_corners.py:424-448 | raises exactly when 2·q1·q2 < 0 or a × b = 0, and then MathDomainError when 2·q1·q2 < 0 (the square root comes first) and ZeroDivisionError otherwise; on success the handles are the Bezier controls for k2 = 4/3 · (sqrt(2·q1·q2) − q2) / (a × b) (`K2`, `ArcHandles`): the handle at p1 is tangent at p1 with squared length k2² · \|a\|², the one at p4 tangent at p4 with squared length k2² · \|b\|², so equally long when p1 and p4 are equally far from c |
| Geometry.ArcHandlesHold | round_corners.py:424-448 | whenever a × b ≠ 0, the Bezier controls for K2 have the tangency and squared lengths that `ArcHandles` lists |
| Geometry.HandlePairHolds | round_corners.py:443-446 | for any factor k, the Bezier controls are tangent at both end points and k² times the squared radius long there, equally long for equal radii |
| Geometry.CosineInRange | round_corners.py:466 | for two non-zero vectors, the dot product over the product of their lengths lies in [-1, 1], so `math.acos` never sees an argument outside its domain over the reals |
| Geometry.CauchySchwarz | round_corners.py:466 | the squared dot product is at most the product of the squared lengths |
| SuperNodes.Clamp | round_corners.py:381-388 | a handle no longer than the neighbour distance is kept; a longer one is scaled down to exactly that distance; the result is never longer than either, and points the same way as the handle (parallel, non-negative projection) |
| SuperNodes.BuildSuperNode | round_corners.py:281-390 | an index past the end is out of range (IndexError), and only that; the last index, and index 0 of a subpath whose first and last nodes differ, have no neighbour, and only they; at any other index the corner is too short exactly when one of dist1, dist2, len_h1, len_h2 is below the radius, and then carries the first of them in that order; a built supernode is well formed: previous index len − 2 at index 0 and idx − 1 elsewhere, next index idx + 1, both distances and both handle lengths at least the radius, each clamped handle at most its distance long and pointing the way of the own handle (or direction) it was clamped from |
| SuperNodes.Measure | round_corners.py:322-390 | too short exactly when one of dist1, dist2, len_h1, len_h2 (in that order) is below the radius, carrying the first such length; otherwise both sides are measured and clamped as `Side` states |
| SuperNodes.Lengths | round_corners.py:328-378 | the four lengths super_node checks, in its order, all non-negative |
| SuperNodes.FirstBelow | round_corners.py:341-378 | none of the lengths is below the radius exactly when there is no first one; a first one is one of them and below the radius |
| SuperNodes.FirstBelowIsFirst | round_corners.py:341-378 | every length before the one FirstBelow picks is at least the radius |
| SuperNodes.FirstBelowFour | round_corners.py:341-378 | on four lengths FirstBelow is the chain of four `if ... < radius` tests of the source |
| SuperNodes.ClampSide | round_corners.py:326-388 | one side: distance to the neighbour's facing handle end; the own handle (or the neighbour direction that replaces a zero own handle) is kept when it is no longer than that distance and otherwise scaled to exactly that length, and the result is parallel to it and points the same way |
| SuperNodes.OwnHandle | round_corners.py:332-335 | a handle equal to its anchor is replaced by the direction to the neighbour; any other handle is taken relative to the anchor |
| Corner.Abs | round_corners.py:229 | the result is non-negative and is x or −x |
| Corner.Angle | round_corners.py:465-470 | an angle exists exactly when both handles are non-zero, and is then `acos` of the dot product over the product of the lengths, in [0, pi]; a zero handle gives no angle (the caught exception) |
| Corner.Budget | round_corners.py:482-494 | accepts exactly when 0 ≤ radius / tan(alpha / 2) ≤ limit, with a trim that fits the circle (trim · tan(alpha / 2) = radius); rejects as negative exactly when radius / tan(alpha / 2) < 0 (only for a negative radius), and otherwise as over budget (only for a positive radius when the limit is non-negative) |
| Corner.Decide | round_corners.py:455-494 | a fold-back exactly when there is no angle or alpha < Eps; nearly straight exactly when Eps ≤ alpha and \|alpha − pi\| < Eps; otherwise exactly what Budget decides for maxTrimFactor · min(a_len, b_len); an accepted corner has Eps ≤ alpha ≤ pi − Eps, 0 ≤ trim within that budget, a fitting trim and non-zero handles |
| Corner.PositiveLength | round_corners.py:495-496 | a non-zero handle has a positive length, so the trim points divide by a non-zero length |
| Corner.TrimPoint | round_corners.py:495-496 | the trim point lies trim away from the anchor on the handle's line, on the side the handle points to (its projection on the handle is trim · hlen), and on the anchor when trim is 0 |
| Corner.OuterHandle | round_corners.py:512-515 | an outer handle is kept unless it equals the anchor, in which case it becomes the trim point |
| Corner.Fillet | round_corners.py:512-536 | 2 nodes when alpha ≥ pi / 2 or cut, else 3; the first and last anchors are the trim points and the outer handles follow OuterHandle; with cut the inner handles are the anchors; the arc's handles are tangent to the circle at every node and are exactly the results of `arc_bezier_handles` on the trim points (one arc) or on each trim point and the midpoint m (two arcs); a zero centre direction raises ZeroDivisionError even with cut, and with cut nothing else raises; without cut it raises exactly when the centre division or one of the `arc_bezier_handles` calls of its mode raises (`ArcRaises`); only ZeroDivisionError and MathDomainError are raised |
| Corner.OneArc | round_corners.py:523-528 | two nodes joined by one arc: the anchors and the outer handles are kept; it succeeds exactly when `arc_bezier_handles(p1, p7, c)` does, and the inner handles are its result, tangent at both ends |
| Corner.TwoArcs | round_corners.py:530-535 | three nodes joined by two arcs that meet at the midpoint m; it succeeds exactly when both `arc_bezier_handles(p1, m, c)` and `arc_bezier_handles(m, p7, c)` do, the four inner handles are their results, and all four are tangent |
| Corner.Splice | round_corners.py:529-543 | the length grows by the number of new nodes less one; the nodes before idx are kept, the new nodes follow, the nodes after idx follow shifted; at index 0 the last node becomes the new first node |
| Corner.SpliceReplaced | round_corners.py:529-543 | a splice replaces node idx by the new nodes as Replaced states: prefix kept, suffix shifted, the last node kept or (at index 0) overwritten with the new first node, closure kept; the first new node is at idx |
| Corner.SpliceClosed | round_corners.py:538-543 | the spliced subpath is closed exactly when the original was closed or the splice was at index 0 |
| Corner.RoundAt | round_corners.py:451-545 | an index past the end raises IndexError, an end node is skipped for lack of a neighbour, a too-short supernode raises UnboundLocalError with its length, and a built one goes on as RoundBuilt says; a rounded corner has Eps ≤ alpha ≤ pi − Eps, a non-negative fitting trim within maxTrimFactor · min(a_len, b_len), replaces node idx by 2 nodes (alpha ≥ pi / 2 or cut) or 3, keeps the prefix, the shifted suffix, the last node and closure, and puts its first new anchor trim away from the old corner |
| Corner.Place | round_corners.py:512-545 | an accepted corner is never a skip; it is rounded exactly when Fillet succeeds, and then the new subpath is the splice of Fillet's nodes, with the angle and trim kept, 2 or 3 nodes in place of node idx and the first new anchor trim away from the old corner; otherwise it raises Fillet's exception |
| Corner.RoundBuilt | round_corners.py:455-545 | skipped exactly when Decide rejects, for Decide's reason (never "no neighbour"); rounded exactly when Decide accepts and Fillet succeeds on its alpha and trim, and then the new subpath is the splice of Fillet's nodes, with the guarantees listed for RoundAt; otherwise it raises only after Decide accepts, with Fillet's exception (ZeroDivisionError or MathDomainError) |
| Corner.IndexErrorIffOutOfRange | round_corners.py:309-324 | a corner raises IndexError exactly when its index is past the end of the subpath |
| Corner.RoundAtErrors | round_corners.py:281-545 | a corner raises only IndexError, UnboundLocalError, ZeroDivisionError or MathDomainError |
| Corner.NoNeighbourIffEnd | round_corners.py:308-321 | a corner is skipped for lack of a neighbour exactly when it is the last node, or the first node of an open subpath |
| Corner.ShortCornerAborts | round_corners.py:341-378 | UnboundLocalError is raised exactly when the supernode is too short, and it carries a length in [0, radius) |
| Corner.ZeroRadiusNeverRounds | round_corners.py:413-419 | with radius 0 no corner is rounded |
| Corner.ZeroRadiusBuilt | round_corners.py:482-519 | with radius 0 an accepted corner raises ZeroDivisionError |
| Corner.ZeroRadiusZeroTrim | round_corners.py:482 | with radius 0 the only fitting trim is 0 |
| Corner.FilletZeroTrim | round_corners.py:495-519 | a zero trim makes the fillet raise ZeroDivisionError in every mode |
| Corner.CentreAtAnchor | round_corners.py:405-411 | trim points on the anchor leave the centre direction zero, and the centre divides by zero |
| Selection.Split | round_corners.py:251 | at least one piece, and no piece contains ':' |
| Selection.JoinSplit | round_corners.py:251-254 | joining the pieces with ':' gives back the key |
| Selection.SplitJoin | round_corners.py:251-254 | splitting colon-free pieces joined with ':' gives back the pieces |
| Selection.SplitNoColon | round_corners.py:251 | a string without ':' splits into itself |
| Selection.SplitPrefix | round_corners.py:251 | a colon-free prefix followed by ':' splits off as the first piece |
| Selection.DigitChar | round_corners.py:253 | the character of a digit is a digit of that value |
| Selection.ParseIndex | round_corners.py:253-256 | `int()` on a field succeeds exactly for a non-empty string of decimal digits |
| Selection.Decimal | round_corners.py:253 | the decimal text of a number is a non-empty string of digits |
| Selection.ParseDecimal | round_corners.py:253-256 | `int()` of the decimal text of k is k |
| Selection.DecimalValue | round_corners.py:253 | the digits of the decimal text of k have value k |
| Selection.LeadingZeroSameIndex | round_corners.py:253-255 | "01" and "1" parse to the same subpath index, yet give different offset-table keys |
| Selection.Occurs | round_corners.py:231 | `needle in hay` holds exactly when the needle occurs at some position of hay |
| Selection.OccursTail | round_corners.py:231 | a needle occurs in a non-empty hay that it does not start exactly when it occurs in hay's tail |
| Selection.BevelOptions | round_corners.py:231 | "line", "in" and "" select the straight cut; "arc", "arc+cross" and "lines" do not |
| Selection.LexLeReflexive | round_corners.py:240 | string order is reflexive |
| Selection.LexLeTotal | round_corners.py:240 | string order is total |
| Selection.LexLeAntisymmetric | round_corners.py:240 | string order is antisymmetric |
| Selection.LexLeTransitive | round_corners.py:240 | string order is transitive |
| Selection.Insert | round_corners.py:240 | inserting into a sorted list gives a sorted permutation of the list plus the key |
| Selection.BelowAll | round_corners.py:240 | a key below the head of a sorted list is below every element |
| Selection.HeadBelowRest | round_corners.py:240 | the head of a sorted list is below every element of any permutation of its tail plus a key above that head |
| Selection.Sort | round_corners.py:240 | `sorted` returns the keys in string order, as a permutation of the selection |
| Selection.SortedUnique | round_corners.py:240 | two sorted permutations of the same keys are equal, so the order of visits is determined |
| Selection.SameFirst | round_corners.py:240 | two sorted permutations of the same keys start with the same key |
| Selection.TenBeforeTwo | round_corners.py:240 | "p:0:10" is visited before "p:0:2" |
| Engine.Tally | round_corners.py:309-494 | a missing neighbour or a fold-back adds one degenerated skip; an over-budget trim adds one small skip; an over-budget trim and a too-short length lower the recorded shortest length to the minimum; nothing else changes the counters |
| Engine.Recorded | round_corners.py:346-491 | a corner records a shortest length exactly when it is over budget (the limit) or too short (the length that raised) |
| Engine.Stored | round_corners.py:453-545 | an exception stores nothing, a skip stores the subpath unchanged, a rounded corner stores the new subpath |
| Engine.Growth | round_corners.py:264-266 | the stored subpath is longer by exactly the growth; only a rounded corner grows |
| Engine.ParseKey | round_corners.py:251-256 | a parsed key has the path id as first piece and both indices parsed from the second and third pieces; a missing piece is an IndexError and a non-numeric one a ValueError, in source order; it succeeds exactly when there are at least three pieces and the second and third parse |
| Engine.ParseKeyOfDecimal | round_corners.py:251-256 | the key written from a colon-free id and two numbers parses back to them |
| Engine.SubpathId | round_corners.py:254 | the offset-table key of colon-free path id and subpath field splits back into those two |
| Engine.Find | round_corners.py:251-262 | a found subpath is the one the key names; key errors propagate; a missing path is an AttributeError; for an existing path it succeeds exactly when the subpath index is in range, and otherwise raises IndexError |
| Engine.FindAfterStep | round_corners.py:251-266 | after a finished call, a key naming the same subpath finds the subpath that call stored |
| Engine.SameSubpathSteps | round_corners.py:246-272 | for two keys parsing to the same subpath, once the first call finishes the second rounds the stored subpath at its own index plus the old offset plus the first call's growth |
| Engine.SameSubpathShift | round_corners.py:240-272 | the same for keys written as "id:sub:node": "p:0:10" then "p:0:2" rounds node 2 shifted by what node 10 inserted |
| Engine.Offset | round_corners.py:255 | `dict.get(key, 0)`: the stored offset of a key in the table, 0 for a key not in it |
| Engine.RounderSound | round_corners.py:266-267 | subpath_round_corner never shortens a subpath it rounds and never aborts the extension |
| Engine.CornerStep | round_corners.py:246-272 | a key that cannot be resolved raises and changes nothing; any exception leaves the offset table and the document as they were |
| Engine.StepWith | round_corners.py:263-272 | the counters follow Tally; the call raises exactly when the corner does, and then leaves the table and the document unchanged |
| Engine.StepWithEffect | round_corners.py:263-272 | a finished call grows only its own subpath's offset, by the growth, and replaces only that subpath of the document |
| Engine.StepFinished | round_corners.py:265-272 | a finished call's new state, with the growth written as the difference of the subpath lengths |
| Engine.Run | round_corners.py:240-243 | no selected key aborts the extension; the counters only grow (the shortest length only shrinks); no offset ever shrinks |
| Engine.NoAbortInStep | round_corners.py:246-272 | one round_corner call never aborts, never lowers a counter and never shrinks an offset |
| Engine.Options | round_corners.py:229-238 | the radius is the absolute value of the option; the cut flag is the substring test; the trim factor is 0.95 when one node is selected, otherwise the previous factor (0.5 on a fresh object) |
| Engine.RoundedCorners.constructor | round_corners.py:211-218 | empty offset table, trim factor 0.5, zero counters, shortest length 1e99, and the corner operation is subpath_round_corner |
| Engine.RoundedCorners.SubpathRoundCorner | round_corners.py:451-545 | returns the subpath to store (or the exception) and updates only the counters, as Tally says |
| Engine.RoundedCorners.RoundCorner | round_corners.py:246-272 | the returned result and the new state are those of CornerStep; a finished call logs one edit, its subpath key with the number of nodes by which the stored subpath is longer than the one it replaced; the offset table stays equal to the sum of the logged growths of each subpath |
| Engine.RoundedCorners.RoundFound | round_corners.py:255-272 | rounds at the raw index plus the subpath's offset, as StepWith says; a finished call logs its subpath key with the length difference of the stored and the old subpath |
| Engine.RoundedCorners.Commit | round_corners.py:264-272 | stores the new subpath in the document, adds the length difference to its subpath's offset, logs that edit, and changes nothing else |
| Engine.RoundedCorners.Effect | round_corners.py:224-243 | sets the radius and the cut flag; an empty selection aborts and changes no state, the trim factor included; otherwise the trim factor follows Options and the result and state are those of Run over the sorted keys |
| Engine.RoundedCorners.RunKeys | round_corners.py:240-243 | visits the keys in order and stops at the first exception, as Run says |
| Engine.OffsetsFollowEdits | round_corners.py:255-272 | adding an edit's growth to its subpath's offset keeps every offset equal to the total growth logged for its subpath |
| Engine.InsertedAppend | round_corners.py:267-272 | logging one edit adds its growth to its own subpath's total only |

## Left out

- The Inkscape 0.92 compatibility shim (round_corners.py:69-192) is host-API patching and XML lookup.
- Opening the tty in `add_arguments` and registering the options are I/O and command-line wiring.
- `getElementById`, `apply_transform`, `to_superpath`, `set_path` and `to_path` are host library calls. The document is a map from path id to its list of subpaths, and an element that does not exist fails as the `AttributeError` of its first method call.
- Debug printing, the `print` of the negative-trim branch and the warnings of `clean_up` are output only. The counters are kept, but how they are reported is not modelled.
- Floating point is not modelled. `math.sqrt`, `math.acos`, `math.tan` and `math.pi` are given values with the facts in `ValidNumerics`, and all arithmetic is exact over the reals. Over the reals the cosine of two non-zero handles always lies in [-1, 1] (`Geometry.CosineInRange`), so the math domain error that the bare `except` at round_corners.py:467 would also catch never arises in the model; a float quotient that rounds just outside [-1, 1] is left out with the rest of floating point.
- `math.degrees(alpha)` is stored only for printing.
- Selection.ParseIndex: `int()` also accepts a sign, surrounding whitespace, underscores and non-ASCII digits; the model takes plain decimal digits only. A negative subpath index, which Python would count from the end, is therefore not modelled.
- The `arc+cross` option is accepted by the command line but never read by the code. It behaves like `arc`, which the model covers.
- Handles are copied as values. The in-place writes to `sp[-1]` (round_corners.py:540-543) also change the last node list of the subpath the caller passed in. The model has no aliasing, so that side effect on the caller's copy is not captured; the returned subpath is.
- Engine.Run: after an exception the extension stops. The model returns the counters as they stood, but does not model what Inkscape does with a half-finished document.
- Engine.RoundedCorners: `round` is a constant function field and the proofs of the methods use only `Sound(round)`. That `round` is `Corner.RoundAt` is stated once, by the constructor (`Faithful`).
