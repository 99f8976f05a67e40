/** The batch driver: round_corner (parse one selection key, find its
    subpath, round the corner at the raw index plus the number of nodes
    already inserted into that subpath, record the growth) and effect (read
    the options, visit the keys in sorted order). The pure functions
    CornerStep and Run specify them; the class RoundedCorners holds the
    extension's fields and runs them in place. The driver reaches the corner
    operation through a function value, as the source reaches
    subpath_round_corner through self; the class fixes that value to
    Corner.RoundAt. */
module Engine {
  import opened Outcomes
  import opened Geometry
  import opened SuperNodes
  import opened Corner
  import opened Selection

  /** The diagnostic counters: degenerated skips, too-small skips, and the
      shortest length recorded while skipping. */
  datatype Counters = Counters(degenerated: nat, smallCount: nat, smallLen: real)

  /** The length a corner outcome records as too small, if any. */
  function Recorded(o: CornerOutcome): (r: Option<real>)
    ensures r.Some? <==> (o.Skipped? && o.why.OverBudget?) || (o.Raised? && o.error.UnboundLocalError?)
    ensures o.Skipped? && o.why.OverBudget? ==> r == Some(o.why.limit)
    ensures o.Raised? && o.error.UnboundLocalError? ==> r == Some(o.error.shortLen)
  {
    if o.Skipped? && o.why.OverBudget? then Some(o.why.limit)
    else if o.Raised? && o.error.UnboundLocalError? then Some(o.error.shortLen)
    else None
  }

  /** How one corner changes the counters: a missing neighbour or a fold-back
      counts as degenerated; a trim over budget counts as too small; both
      too-small cases lower the recorded shortest length to their own. */
  function Tally(c: Counters, o: CornerOutcome): (r: Counters)
    ensures r.degenerated == c.degenerated + (if o == Skipped(NoNeighbour) || o == Skipped(FoldsBack) then 1 else 0)
    ensures r.smallCount == c.smallCount + (if o.Skipped? && o.why.OverBudget? then 1 else 0)
    ensures Recorded(o).None? ==> r.smallLen == c.smallLen
    ensures Recorded(o).Some? ==> r.smallLen == Min(c.smallLen, Recorded(o).value)
  {
    match o
    case Skipped(NoNeighbour) => c.(degenerated := c.degenerated + 1)
    case Skipped(FoldsBack) => c.(degenerated := c.degenerated + 1)
    case Skipped(OverBudget(limit)) =>
      c.(smallCount := c.smallCount + 1, smallLen := if c.smallLen > limit then limit else c.smallLen)
    case Raised(UnboundLocalError(len)) =>
      c.(smallLen := if c.smallLen > len then len else c.smallLen)
    case _ => c
  }

  /** The subpath that round_corner stores after one corner: the new one,
      the same one after a skip, or nothing when an exception escapes. */
  function Stored(sp: Subpath, o: CornerOutcome): (r: Result<Subpath>)
    ensures o.Raised? <==> r.Raise?
    ensures o.Skipped? ==> r == Ok(sp)
    ensures o.Rounded? ==> r == Ok(o.sp)
  {
    match o
    case Rounded(s, _, _) => Ok(s)
    case Skipped(_) => Ok(sp)
    case Raised(e) => Raise(e)
  }

  /** By how many nodes the corner grew its subpath: the stored subpath is
      that much longer, and only a rounded corner grows it. */
  function Growth(sp: Subpath, o: CornerOutcome): (g: nat)
    ensures Stored(sp, o).Ok? && |Stored(sp, o).value| >= |sp| ==> |Stored(sp, o).value| == |sp| + g
    ensures !o.Rounded? ==> g == 0
  {
    if o.Rounded? && |o.sp| >= |sp| then |o.sp| - |sp| else 0
  }

  /** A parsed selection key: the path id, the subpath field as written, and
      the two indices. */
  datatype Key = Key(pathId: string, subpathField: string, subpath: nat, node: nat)

  /** The key of the offset table: path id and subpath field as written,
      joined by a colon, so that it splits back into the two. */
  function SubpathId(k: Key): (id: string)
    ensures ':' !in k.pathId && ':' !in k.subpathField ==> Split(id) == [k.pathId, k.subpathField]
  {
    var id := k.pathId + ":" + k.subpathField;
    assert Join([k.pathId, k.subpathField]) == id by {
      assert [k.pathId, k.subpathField][1..] == [k.subpathField];
    }
    if ':' !in k.pathId && ':' !in k.subpathField then
      SplitJoin([k.pathId, k.subpathField]);
      id
    else id
  }

  /** The key parsing of round_corner, in source order: a missing subpath
      field is an IndexError, a non-numeric one a ValueError, then the same
      for the node field. Pieces after the third are ignored. */
  function ParseKey(nodeId: string): (r: Result<Key>)
    ensures r.Ok? ==>
      var s := Split(nodeId);
      |s| >= 3 && r.value.pathId == s[0] && r.value.subpathField == s[1]
      && ParseIndex(s[1]) == Some(r.value.subpath) && ParseIndex(s[2]) == Some(r.value.node)
    ensures r.Raise? ==> r.error == IndexError || r.error == ValueError
    ensures r.Raise? && r.error == IndexError <==>
      |Split(nodeId)| < 2 || (ParseIndex(Split(nodeId)[1]).Some? && |Split(nodeId)| < 3)
    ensures r.Ok? <==>
      |Split(nodeId)| >= 3 && ParseIndex(Split(nodeId)[1]).Some? && ParseIndex(Split(nodeId)[2]).Some?
  {
    var s := Split(nodeId);
    if |s| < 2 then Raise(IndexError)
    else
      match ParseIndex(s[1])
      case None => Raise(ValueError)
      case Some(sub) =>
        if |s| < 3 then Raise(IndexError)
        else
          match ParseIndex(s[2])
          case None => Raise(ValueError)
          case Some(node) => Ok(Key(s[0], s[1], sub, node))
  }

  /** A key written as "id:sub:node" from a colon-free id and two numbers
      parses back to them. */
  lemma {:induction false} ParseKeyOfDecimal(pathId: string, sub: nat, node: nat)
    requires ':' !in pathId
    ensures ParseKey(Join([pathId, Decimal(sub), Decimal(node)])) == Ok(Key(pathId, Decimal(sub), sub, node))
  {
    var parts := [pathId, Decimal(sub), Decimal(node)];
    SplitJoin(parts);
    ParseDecimal(sub);
    ParseDecimal(node);
  }

  /** The document: each path id names its list of subpaths. */
  type Document = map<string, seq<Subpath>>

  /** getElementById and the subpath lookup: a missing element fails on its
      first method call (AttributeError), a missing subpath is an
      IndexError. */
  function Find(doc: Document, nodeId: string): (r: Result<(Key, Subpath)>)
    ensures r.Ok? ==>
      ParseKey(nodeId) == Ok(r.value.0) && r.value.0.pathId in doc
      && r.value.0.subpath < |doc[r.value.0.pathId]|
      && r.value.1 == doc[r.value.0.pathId][r.value.0.subpath]
    ensures r.Raise? ==>
      ParseKey(nodeId).Raise? ==> r.error == ParseKey(nodeId).error
    ensures ParseKey(nodeId).Ok? && ParseKey(nodeId).value.pathId !in doc ==> r == Raise(AttributeError)
    ensures ParseKey(nodeId).Ok? && ParseKey(nodeId).value.pathId in doc ==>
      (r.Ok? <==> ParseKey(nodeId).value.subpath < |doc[ParseKey(nodeId).value.pathId]|)
    ensures (ParseKey(nodeId).Ok? && ParseKey(nodeId).value.pathId in doc
             && ParseKey(nodeId).value.subpath >= |doc[ParseKey(nodeId).value.pathId]|) ==> r == Raise(IndexError)
  {
    match ParseKey(nodeId)
    case Raise(e) => Raise(e)
    case Ok(k) =>
      if k.pathId !in doc then Raise(AttributeError)
      else if k.subpath >= |doc[k.pathId]| then Raise(IndexError)
      else Ok((k, doc[k.pathId][k.subpath]))
  }

  /** dict.get(key, 0) on the offset table. */
  function Offset(table: map<string, nat>, key: string): (v: nat)
    ensures key in table ==> v == table[key]
    ensures key !in table ==> v == 0
  {
    if key in table then table[key] else 0
  }

  /** The state one round_corner call reads and writes. */
  datatype Batch = Batch(counts: Counters, nodesInserted: map<string, nat>, document: Document)

  /** The corner operation the driver calls: subpath, index, settings. */
  type CornerOp = (Subpath, nat, Settings) -> CornerOutcome

  /** What the driver relies on from the corner operation: a rounded corner
      makes its subpath longer, and no corner aborts the extension. */
  ghost predicate Sound(round: CornerOp) {
    forall sp, idx, cfg ::
      && (round(sp, idx, cfg).Rounded? ==> |round(sp, idx, cfg).sp| > |sp|)
      && round(sp, idx, cfg) != Raised(AbortExtension)
  }

  /** subpath_round_corner, as the corner operation of the driver. */
  function Rounder(n: Numerics): (round: CornerOp)
    requires ValidNumerics(n)
    ensures forall sp, idx, cfg :: round(sp, idx, cfg) == RoundAt(n, sp, idx, cfg)
  {
    (sp: Subpath, idx: nat, cfg: Settings) => RoundAt(n, sp, idx, cfg)
  }

  /** subpath_round_corner meets what the driver relies on. */
  lemma RounderSound(n: Numerics)
    requires ValidNumerics(n)
    ensures Sound(Rounder(n))
  {
    var round := Rounder(n);
    forall sp, idx, cfg
      ensures round(sp, idx, cfg).Rounded? ==> |round(sp, idx, cfg).sp| > |sp|
      ensures round(sp, idx, cfg) != Raised(AbortExtension)
    {
      var o := RoundAt(n, sp, idx, cfg);
      if o.Rounded? {
        assert Replaced(sp, idx, o.sp, if o.alpha >= 0.5 * n.pi || cfg.cut then 2 else 3);
      }
      RoundAtErrors(n, sp, idx, cfg);
    }
  }

  /** round_corner on one key. The corner is rounded at the node index of
      the key plus the offset recorded for its subpath; afterwards the
      subpath is stored back and the offset grows by the number of inserted
      nodes. A key that cannot be resolved changes nothing. */
  function CornerStep(round: CornerOp, cfg: Settings, b: Batch, nodeId: string): (r: (Result<()>, Batch))
    ensures Find(b.document, nodeId).Raise? ==> r == (Raise(Find(b.document, nodeId).error), b)
    ensures r.0.Raise? ==> r.1.nodesInserted == b.nodesInserted && r.1.document == b.document
  {
    match Find(b.document, nodeId)
    case Raise(e) => (Raise(e), b)
    case Ok((k, sp)) => StepWith(b, k, sp, round(sp, k.node + Offset(b.nodesInserted, SubpathId(k)), cfg))
  }

  /** round_corner once the key names an existing subpath sp and the corner
      has come out as o. The counters follow Tally, and an exception leaves
      the table and the document as they were; StepWithEffect says what a
      finished call changes. */
  function StepWith(b: Batch, k: Key, sp: Subpath, o: CornerOutcome): (r: (Result<()>, Batch))
    requires k.pathId in b.document && k.subpath < |b.document[k.pathId]|
    ensures r.1.counts == Tally(b.counts, o) && (r.0.Raise? <==> o.Raised?)
    ensures r.0.Raise? ==> r.1.nodesInserted == b.nodesInserted && r.1.document == b.document
  {
    var id := SubpathId(k);
    var counts := Tally(b.counts, o);
    match Stored(sp, o)
    case Raise(e) => (Raise(e), b.(counts := counts))
    case Ok(sp') =>
      (Ok(()), Batch(counts,
                     b.nodesInserted[id := Offset(b.nodesInserted, id) + Growth(sp, o)],
                     b.document[k.pathId := b.document[k.pathId][k.subpath := sp']]))
  }

  /** A finished round_corner grows only the offset of its own subpath, by
      the number of inserted nodes, and replaces only that subpath of the
      document. */
  lemma StepWithEffect(b: Batch, k: Key, sp: Subpath, o: CornerOutcome)
    requires k.pathId in b.document && k.subpath < |b.document[k.pathId]|
    ensures var r := StepWith(b, k, sp, o);
      r.0.Ok? ==>
      && Offset(r.1.nodesInserted, SubpathId(k)) == Offset(b.nodesInserted, SubpathId(k)) + Growth(sp, o)
      && (forall key :: key != SubpathId(k) ==> Offset(r.1.nodesInserted, key) == Offset(b.nodesInserted, key))
      && r.1.document.Keys == b.document.Keys
      && |r.1.document[k.pathId]| == |b.document[k.pathId]|
      && r.1.document[k.pathId][k.subpath] == Stored(sp, o).value
      && (forall i :: 0 <= i < |b.document[k.pathId]| && i != k.subpath ==>
            r.1.document[k.pathId][i] == b.document[k.pathId][i])
      && (forall id :: id in b.document && id != k.pathId ==> r.1.document[id] == b.document[id])
  {
  }

  /** Two keys of the same subpath in a row: once the first corner is
      finished, the second is looked up in the subpath the first one stored
      and rounded at its own index shifted by the nodes the first one
      inserted. So "p:0:10" sorted before "p:0:2" shifts the later corner by
      what was inserted at node 10. */
  lemma {:induction false} SameSubpathShift(round: CornerOp, cfg: Settings, b: Batch, pathId: string,
                                            sub: nat, node1: nat, node2: nat)
    requires ':' !in pathId && pathId in b.document && sub < |b.document[pathId]|
    ensures var id := pathId + ":" + Decimal(sub);
      var sp := b.document[pathId][sub];
      var o1 := round(sp, node1 + Offset(b.nodesInserted, id), cfg);
      var s1 := CornerStep(round, cfg, b, Join([pathId, Decimal(sub), Decimal(node1)]));
      s1.0.Ok? ==>
        && pathId in s1.1.document && sub < |s1.1.document[pathId]| && Stored(sp, o1).Ok?
        && s1.1.document[pathId][sub] == Stored(sp, o1).value
        && CornerStep(round, cfg, s1.1, Join([pathId, Decimal(sub), Decimal(node2)]))
           == StepWith(s1.1, Key(pathId, Decimal(sub), sub, node2), Stored(sp, o1).value,
                       round(Stored(sp, o1).value, node2 + Offset(b.nodesInserted, id) + Growth(sp, o1), cfg))
  {
    var k1 := Key(pathId, Decimal(sub), sub, node1);
    var k2 := Key(pathId, Decimal(sub), sub, node2);
    ParseKeyOfDecimal(pathId, sub, node1);
    ParseKeyOfDecimal(pathId, sub, node2);
    assert SubpathId(k1) == pathId + ":" + Decimal(sub);
    SameSubpathSteps(round, cfg, b, Join([pathId, Decimal(sub), Decimal(node1)]),
                     Join([pathId, Decimal(sub), Decimal(node2)]), k1, k2);
  }

  /** SameSubpathShift for any two keys that parse to the same subpath. */
  lemma {:induction false} SameSubpathSteps(round: CornerOp, cfg: Settings, b: Batch, key1: string, key2: string,
                                            k1: Key, k2: Key)
    requires ParseKey(key1) == Ok(k1) && ParseKey(key2) == Ok(k2)
    requires k2.pathId == k1.pathId && k2.subpathField == k1.subpathField && k2.subpath == k1.subpath
    requires k1.pathId in b.document && k1.subpath < |b.document[k1.pathId]|
    ensures var sp := b.document[k1.pathId][k1.subpath];
      var o1 := round(sp, k1.node + Offset(b.nodesInserted, SubpathId(k1)), cfg);
      var s1 := CornerStep(round, cfg, b, key1);
      s1.0.Ok? ==>
        && k1.pathId in s1.1.document && k1.subpath < |s1.1.document[k1.pathId]| && Stored(sp, o1).Ok?
        && s1.1.document[k1.pathId][k1.subpath] == Stored(sp, o1).value
        && CornerStep(round, cfg, s1.1, key2)
           == StepWith(s1.1, k2, Stored(sp, o1).value,
                       round(Stored(sp, o1).value, k2.node + Offset(b.nodesInserted, SubpathId(k1)) + Growth(sp, o1), cfg))
  {
    var sp := b.document[k1.pathId][k1.subpath];
    var o1 := round(sp, k1.node + Offset(b.nodesInserted, SubpathId(k1)), cfg);
    CornerStepFound(round, cfg, b, key1, k1, sp);
    var s1 := StepWith(b, k1, sp, o1);
    StepWithEffect(b, k1, sp, o1);
    FindAfterStep(b, k1, sp, o1, key2, k2);
    if s1.0.Ok? {
      assert SubpathId(k2) == SubpathId(k1);
      CornerStepFound(round, cfg, s1.1, key2, k2, Stored(sp, o1).value);
    }
  }

  /** CornerStep on a key that Find resolves. */
  lemma CornerStepFound(round: CornerOp, cfg: Settings, b: Batch, nodeId: string, k: Key, sp: Subpath)
    requires Find(b.document, nodeId) == Ok((k, sp))
    ensures CornerStep(round, cfg, b, nodeId)
            == StepWith(b, k, sp, round(sp, k.node + Offset(b.nodesInserted, SubpathId(k)), cfg))
  {
  }

  /** After a finished step on subpath k of the document, a key naming the
      same subpath finds the subpath that step stored. */
  lemma {:induction false} FindAfterStep(b: Batch, k: Key, sp: Subpath, o: CornerOutcome, nodeId: string, k': Key)
    requires k.pathId in b.document && k.subpath < |b.document[k.pathId]|
    requires ParseKey(nodeId) == Ok(k') && k'.pathId == k.pathId && k'.subpath == k.subpath
    ensures StepWith(b, k, sp, o).0.Ok? ==>
      Stored(sp, o).Ok? && Find(StepWith(b, k, sp, o).1.document, nodeId) == Ok((k', Stored(sp, o).value))
  {
    StepWithEffect(b, k, sp, o);
  }

  /** The loop of effect: the keys in turn, stopping at the first exception.
      No key aborts the extension, the counters only move one way and no
      offset ever shrinks. */
  function Run(round: CornerOp, cfg: Settings, b: Batch, keys: seq<string>): (r: (Result<()>, Batch))
    requires Sound(round)
    ensures r.0.Raise? ==> r.0.error != AbortExtension
    ensures r.1.counts.degenerated >= b.counts.degenerated
    ensures r.1.counts.smallCount >= b.counts.smallCount
    ensures r.1.counts.smallLen <= b.counts.smallLen
    ensures forall key :: Offset(r.1.nodesInserted, key) >= Offset(b.nodesInserted, key)
    decreases |keys|
  {
    if |keys| == 0 then (Ok(()), b)
    else
      var step := CornerStep(round, cfg, b, keys[0]);
      NoAbortInStep(round, cfg, b, keys[0]);
      if step.0.Raise? then step
      else Run(round, cfg, step.1, keys[1..])
  }

  lemma {:induction false} NoAbortInStep(round: CornerOp, cfg: Settings, b: Batch, nodeId: string)
    requires Sound(round)
    ensures CornerStep(round, cfg, b, nodeId).0.Raise? ==> CornerStep(round, cfg, b, nodeId).0.error != AbortExtension
    ensures var b' := CornerStep(round, cfg, b, nodeId).1;
      b'.counts.degenerated >= b.counts.degenerated && b'.counts.smallCount >= b.counts.smallCount
      && b'.counts.smallLen <= b.counts.smallLen
      && forall key :: Offset(b'.nodesInserted, key) >= Offset(b.nodesInserted, key)
  {
    var f := Find(b.document, nodeId);
    if f.Raise? {
      assert ParseKey(nodeId).Raise? ==> f.error == ParseKey(nodeId).error;
    } else {
      var (k, sp) := f.value;
      var o := round(sp, k.node + Offset(b.nodesInserted, SubpathId(k)), cfg);
      assert o != Raised(AbortExtension);
    }
  }

  /** The options effect derives: the radius is taken by absolute value; the
      bevel flag is the substring test; a single selected node may use 0.95
      of the shorter handle instead of the default. */
  function Options(radiusOption: real, methodOption: string, count: nat, factor: real): (cfg: Settings)
    ensures cfg.radius >= 0.0 && (cfg.radius == radiusOption || cfg.radius == -radiusOption)
    ensures cfg.cut <==> Occurs(methodOption, "line")
    ensures cfg.maxTrimFactor == (if count == 1 then 0.95 else factor)
  {
    Settings(Abs(radiusOption), if count == 1 then 0.95 else factor, Occurs(methodOption, "line"))
  }

  /** The extension object. The three skip counters, the offset table and the
      document are fields that round_corner and effect update in place; the
      ghost field edits records every finished round_corner call. */
  class RoundedCorners {
    const num: Numerics
    const round: CornerOp
    var radius: real
    var cut: bool
    var maxTrimFactor: real
    var skippedDegenerated: nat
    var skippedSmallCount: nat
    var skippedSmallLen: real
    var nodesInserted: map<string, nat>
    var document: Document
    ghost var edits: seq<(string, nat)>

    /** The corner operation is sound, and the offset recorded for each
        subpath is the total growth of all finished edits of that subpath. */
    ghost predicate Valid()
      reads this
    {
      && Sound(round)
      && forall key :: Offset(nodesInserted, key) == Inserted(edits, key)
    }

    /** The corner operation is subpath_round_corner. Both are constants,
        so this holds for the life of the object once the constructor has
        established it. */
    ghost predicate Faithful() {
      && ValidNumerics(num)
      && forall sp, idx, cfg :: round(sp, idx, cfg) == RoundAt(num, sp, idx, cfg)
    }

    function Config(): Settings
      reads this
    {
      Settings(radius, maxTrimFactor, cut)
    }

    function State(): Batch
      reads this
    {
      Batch(Counters(skippedDegenerated, skippedSmallCount, skippedSmallLen), nodesInserted, document)
    }

    /** add_arguments: no offsets yet, the default trim factor 0.5, zero
        counters and a shortest length of 1e99. */
    constructor (num: Numerics, document: Document)
      requires ValidNumerics(num)
      ensures Valid() && Faithful() && this.num == num && this.document == document
      ensures nodesInserted == map[] && edits == [] && maxTrimFactor == 0.5
      ensures State().counts == Counters(0, 0, 1e99)
    {
      this.num := num;
      round := Rounder(num);
      radius := 0.0;
      cut := false;
      maxTrimFactor := 0.5;
      skippedDegenerated := 0;
      skippedSmallCount := 0;
      skippedSmallLen := 1e99;
      nodesInserted := map[];
      this.document := document;
      edits := [];
      RounderSound(num);
    }

    /** subpath_round_corner with its counter updates: the subpath to store,
        or the exception. */
    method SubpathRoundCorner(sp: Subpath, idx: nat) returns (r: Result<Subpath>)
      modifies this
      ensures r == Stored(sp, round(sp, idx, old(Config())))
      ensures State() == old(State()).(counts := Tally(old(State()).counts, round(sp, idx, old(Config()))))
      ensures Config() == old(Config()) && edits == old(edits)
    {
      var o := round(sp, idx, Config());
      match o {
        case Skipped(why) =>
          if why == NoNeighbour || why == FoldsBack {
            skippedDegenerated := skippedDegenerated + 1;
          } else if why.OverBudget? {
            if skippedSmallLen > why.limit {
              skippedSmallLen := why.limit;
            }
            skippedSmallCount := skippedSmallCount + 1;
          }
          r := Ok(sp);
        case Raised(e) =>
          if e.UnboundLocalError? && skippedSmallLen > e.shortLen {
            skippedSmallLen := e.shortLen;
          }
          r := Raise(e);
        case Rounded(s, _, _) =>
          r := Ok(s);
      }
    }

    /** round_corner: as CornerStep says, and every finished call is logged
        in edits with its subpath key and the number of nodes by which the
        stored subpath is longer than the one it replaced. */
    method RoundCorner(nodeId: string) returns (r: Result<()>)
      requires Valid()
      modifies this
      ensures Valid() && Config() == old(Config())
      ensures (r, State()) == CornerStep(round, old(Config()), old(State()), nodeId)
      ensures r.Raise? ==> edits == old(edits)
      ensures r.Ok? ==>
        && Find(old(document), nodeId).Ok?
        && var (k, sp) := Find(old(document), nodeId).value;
           && k.pathId in document && k.subpath < |document[k.pathId]|
           && edits == old(edits) + [(SubpathId(k), |document[k.pathId][k.subpath]| - |sp|)]
    {
      var found := Find(document, nodeId);
      if found.Raise? {
        return Raise(found.error);
      }
      var (k, sp) := found.value;
      r := RoundFound(k, sp);
    }

    /** The rest of round_corner once the key has named subpath sp: round at
        the shifted index, store the subpath, grow the offset. */
    method RoundFound(k: Key, sp: Subpath) returns (r: Result<()>)
      requires Valid() && k.pathId in document && k.subpath < |document[k.pathId]|
      modifies this
      ensures Valid() && Config() == old(Config())
      ensures (r, State()) ==
        StepWith(old(State()), k, sp, round(sp, k.node + Offset(old(nodesInserted), SubpathId(k)), old(Config())))
      ensures r.Raise? ==> edits == old(edits)
      ensures r.Ok? ==>
        && k.pathId in document && k.subpath < |document[k.pathId]|
        && edits == old(edits) + [(SubpathId(k), |document[k.pathId][k.subpath]| - |sp|)]
    {
      var id := SubpathId(k);
      var adjust := Offset(nodesInserted, id);
      ghost var o := round(sp, k.node + adjust, Config());
      var res := SubpathRoundCorner(sp, k.node + adjust);
      if res.Raise? {
        return Raise(res.error);
      }
      var sp' := res.value;
      StepFinished(old(State()), k, sp, o, sp');
      Commit(k, sp, sp');
      r := Ok(());
    }

    /** The end of a finished round_corner: store the new subpath, grow the
        offset of its subpath key by the growth, and log the edit. */
    method Commit(k: Key, sp: Subpath, sp': Subpath)
      requires Valid() && k.pathId in document && k.subpath < |document[k.pathId]| && |sp'| >= |sp|
      modifies this
      ensures Valid() && Config() == old(Config()) && State().counts == old(State()).counts
      ensures document == old(document)[k.pathId := old(document)[k.pathId][k.subpath := sp']]
      ensures nodesInserted ==
        old(nodesInserted)[SubpathId(k) := Offset(old(nodesInserted), SubpathId(k)) + (|sp'| - |sp|)]
      ensures k.pathId in document && k.subpath < |document[k.pathId]| && document[k.pathId][k.subpath] == sp'
      ensures edits == old(edits) + [(SubpathId(k), |document[k.pathId][k.subpath]| - |sp|)]
    {
      var id := SubpathId(k);
      var grown := |sp'| - |sp|;
      OffsetsFollowEdits(nodesInserted, edits, id, grown);
      document := document[k.pathId := document[k.pathId][k.subpath := sp']];
      nodesInserted := nodesInserted[id := Offset(nodesInserted, id) + grown];
      edits := edits + [(id, grown)];
    }

    /** effect: set the radius, the bevel flag and the trim factor, refuse an
        empty selection, then round the selected corners in sorted key order,
        stopping at the first exception. */
    method Effect(selected: seq<string>, radiusOption: real, methodOption: string) returns (r: Result<()>)
      requires Valid()
      modifies this
      ensures Valid()
      ensures radius == Abs(radiusOption) && (cut <==> Occurs(methodOption, "line"))
      ensures |selected| == 0 ==>
        r == Raise(AbortExtension) && State() == old(State()) && maxTrimFactor == old(maxTrimFactor)
      ensures |selected| > 0 ==>
        Config() == Options(radiusOption, methodOption, |selected|, old(maxTrimFactor))
        && (r, State()) == Run(round, Config(), old(State()), Sort(selected))
      ensures r == Raise(AbortExtension) <==> |selected| == 0
    {
      radius := Abs(radiusOption);
      cut := false;
      if Occurs(methodOption, "line") {
        cut := true;
      }
      if |selected| < 1 {
        return Raise(AbortExtension);
      }
      if |selected| == 1 {
        maxTrimFactor := 0.95;
      }
      r := RunKeys(Sort(selected));
    }

    /** The loop of effect: round_corner on each key in turn, stopping at
        the first exception, as Run says. */
    method RunKeys(keys: seq<string>) returns (r: Result<()>)
      requires Valid()
      modifies this
      ensures Valid() && Config() == old(Config())
      ensures (r, State()) == Run(round, Config(), old(State()), keys)
    {
      ghost var start := State();
      var i := 0;
      r := Ok(());
      while i < |keys|
        invariant 0 <= i <= |keys|
        invariant Valid() && Config() == old(Config())
        invariant Run(round, Config(), start, keys) == Run(round, Config(), State(), keys[i..])
        invariant r == Ok(())
        decreases |keys| - i
      {
        var res := RoundCorner(keys[i]);
        if res.Raise? {
          assert Run(round, Config(), start, keys) == (res, State());
          return res;
        }
        assert keys[i..][1..] == keys[i + 1..];
        i := i + 1;
      }
    }
  }

  /** The total growth the edit log records for one subpath key. */
  ghost function Inserted(edits: seq<(string, nat)>, key: string): nat
  {
    if |edits| == 0 then 0
    else Inserted(edits[..|edits| - 1], key) + (if edits[|edits| - 1].0 == key then edits[|edits| - 1].1 else 0)
  }

  /** A finished corner: the new batch written out with the growth as the
      difference of the subpath lengths. */
  lemma StepFinished(b: Batch, k: Key, sp: Subpath, o: CornerOutcome, sp': Subpath)
    requires k.pathId in b.document && k.subpath < |b.document[k.pathId]|
    requires Stored(sp, o) == Ok(sp') && (o.Rounded? ==> |o.sp| > |sp|)
    ensures |sp'| >= |sp|
    ensures StepWith(b, k, sp, o) ==
      (Ok(()), Batch(Tally(b.counts, o),
                     b.nodesInserted[SubpathId(k) := Offset(b.nodesInserted, SubpathId(k)) + (|sp'| - |sp|)],
                     b.document[k.pathId := b.document[k.pathId][k.subpath := sp']]))
  {
  }

  /** Logging an edit and adding its growth to the table keep the table
      equal to the log's totals. */
  lemma OffsetsFollowEdits(table: map<string, nat>, edits: seq<(string, nat)>, id: string, g: nat)
    requires forall key :: Offset(table, key) == Inserted(edits, key)
    ensures forall key :: Offset(table[id := Offset(table, id) + g], key) == Inserted(edits + [(id, g)], key)
  {
    InsertedAppend(edits, id, g);
  }

  lemma InsertedAppend(edits: seq<(string, nat)>, id: string, g: nat)
    ensures forall key :: Inserted(edits + [(id, g)], key) == Inserted(edits, key) + (if key == id then g else 0)
  {
    assert (edits + [(id, g)])[..|edits|] == edits;
  }
}
