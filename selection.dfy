/** The selection keys "pathId:subpathIndex:nodeIndex" as the batch driver
    reads them: str.split(':'), int() on the index fields, the `in` test on
    the method option, and the order in which sorted() visits the keys. */
module Selection {
  import opened Outcomes

  /** str.split(':'): the pieces between the colons, empty pieces included;
      there is always at least one piece. */
  function Split(s: string): (parts: seq<string>)
    ensures |parts| >= 1
    ensures forall i :: 0 <= i < |parts| ==> ':' !in parts[i]
  {
    if |s| == 0 then [""]
    else
      var rest := Split(s[1..]);
      if s[0] == ':' then [""] + rest
      else [[s[0]] + rest[0]] + rest[1..]
  }

  /** ':'.join(parts). */
  function Join(parts: seq<string>): string
    requires |parts| >= 1
  {
    if |parts| == 1 then parts[0] else parts[0] + ":" + Join(parts[1..])
  }

  /** Joining the pieces of a split gives back the key. */
  lemma {:induction false} JoinSplit(s: string)
    ensures Join(Split(s)) == s
  {
    if |s| > 0 {
      JoinSplit(s[1..]);
      var rest := Split(s[1..]);
      if s[0] != ':' {
        if |rest| > 1 {
          assert Join(rest) == rest[0] + ":" + Join(rest[1..]);
        }
      }
    }
  }

  /** Splitting a join of colon-free pieces gives back the pieces. */
  lemma {:induction false} SplitJoin(parts: seq<string>)
    requires |parts| >= 1
    requires forall i :: 0 <= i < |parts| ==> ':' !in parts[i]
    ensures Split(Join(parts)) == parts
  {
    if |parts| == 1 {
      SplitNoColon(parts[0]);
    } else {
      SplitJoin(parts[1..]);
      SplitPrefix(parts[0], Join(parts[1..]));
    }
  }

  lemma {:induction false} SplitNoColon(s: string)
    requires ':' !in s
    ensures Split(s) == [s]
  {
    if |s| > 0 {
      SplitNoColon(s[1..]);
      assert s == [s[0]] + s[1..];
    }
  }

  /** A colon-free piece followed by a colon splits off as the first piece. */
  lemma {:induction false} SplitPrefix(p: string, t: string)
    requires ':' !in p
    ensures Split(p + ":" + t) == [p] + Split(t)
  {
    if |p| == 0 {
      assert p + ":" + t == [':'] + t;
      assert ([':'] + t)[1..] == t;
    } else {
      assert (p + ":" + t)[1..] == p[1..] + ":" + t;
      SplitPrefix(p[1..], t);
      assert [p[0]] + p[1..] == p;
    }
  }

  predicate IsDigit(c: char) { '0' <= c <= '9' }

  function DigitValue(c: char): nat
    requires IsDigit(c)
  {
    (c - '0') as nat
  }

  function DigitChar(d: nat): (c: char)
    requires d < 10
    ensures IsDigit(c) && DigitValue(c) == d
  {
    ('0' as int + d) as char
  }

  /** The value of a string of decimal digits, most significant first. */
  function DigitsValue(s: string): nat
    requires forall i :: 0 <= i < |s| ==> IsDigit(s[i])
  {
    if |s| == 0 then 0 else 10 * DigitsValue(s[..|s| - 1]) + DigitValue(s[|s| - 1])
  }

  /** int() of an index field: a non-empty string of decimal digits gives its
      value; anything else is a ValueError. */
  function ParseIndex(s: string): (r: Option<nat>)
    ensures r.Some? <==> |s| > 0 && forall i :: 0 <= i < |s| ==> IsDigit(s[i])
  {
    if |s| > 0 && forall i :: 0 <= i < |s| ==> IsDigit(s[i]) then Some(DigitsValue(s)) else None
  }

  /** str() of a natural number. */
  function Decimal(k: nat): (s: string)
    ensures |s| > 0 && forall i :: 0 <= i < |s| ==> IsDigit(s[i])
  {
    if k < 10 then [DigitChar(k)] else Decimal(k / 10) + [DigitChar(k % 10)]
  }

  /** int(str(k)) == k. */
  lemma {:induction false} ParseDecimal(k: nat)
    ensures ParseIndex(Decimal(k)) == Some(k)
  {
    DecimalValue(k);
  }

  lemma {:induction false} DecimalValue(k: nat)
    ensures DigitsValue(Decimal(k)) == k
  {
    if k >= 10 {
      DecimalValue(k / 10);
      var s := Decimal(k);
      assert s[..|s| - 1] == Decimal(k / 10);
    }
  }

  /** Two different keys can name the same subpath: int() ignores leading
      zeros, but the offset table is keyed by the text of the field. */
  lemma LeadingZeroSameIndex()
    ensures ParseIndex("01") == ParseIndex("1") == Some(1)
    ensures "p:" + "01" != "p:" + "1"
  {
    assert DigitsValue("01") == 10 * DigitsValue("0") + 1;
    assert "p:" + "01" != "p:" + "1" by {
      assert ("p:" + "01")[2] == '0' && ("p:" + "1")[2] == '1';
    }
  }

  /** needle occurs in hay at position i. */
  predicate OccursAt(needle: string, hay: string, i: int) {
    0 <= i <= |hay| - |needle| && hay[i..i + |needle|] == needle
  }

  /** Python's `needle in hay` on strings: needle occurs in hay at some
      position. */
  function Occurs(needle: string, hay: string): (r: bool)
    ensures r <==> exists i :: OccursAt(needle, hay, i)
  {
    if |needle| > |hay| then false
    else if hay[..|needle|] == needle then
      assert OccursAt(needle, hay, 0);
      true
    else
      OccursTail(needle, hay);
      Occurs(needle, hay[1..])
  }

  lemma OccursTail(needle: string, hay: string)
    requires |needle| <= |hay| && hay[..|needle|] != needle
    ensures (exists i :: OccursAt(needle, hay, i)) <==> (exists i :: OccursAt(needle, hay[1..], i))
  {
    if exists i :: OccursAt(needle, hay, i) {
      var i :| OccursAt(needle, hay, i);
      assert i > 0;
      assert hay[1..][i - 1..i - 1 + |needle|] == needle;
      assert OccursAt(needle, hay[1..], i - 1);
    }
    if exists i :: OccursAt(needle, hay[1..], i) {
      var i :| OccursAt(needle, hay[1..], i);
      assert hay[i + 1..i + 1 + |needle|] == needle;
      assert OccursAt(needle, hay, i + 1);
    }
  }

  /** The bevel test `method in ('line')` is a substring test: it accepts
      "line" and also "l", "in" or the empty string, and refuses "arc" and
      "arc+cross". */
  lemma {:induction false} BevelOptions()
    ensures Occurs("line", "line") && Occurs("in", "line") && Occurs("", "line")
    ensures !Occurs("arc", "line") && !Occurs("arc+cross", "line") && !Occurs("lines", "line")
  {
    assert OccursAt("in", "line", 1);
    assert OccursAt("", "line", 0);
    assert OccursAt("line", "line", 0);
    forall i | 0 <= i <= 1
      ensures !OccursAt("arc", "line", i)
    {
      assert "line"[i..i + 3][0] != 'a';
    }
  }

  /** Python's string order: the first differing character decides, and a
      proper prefix comes first. */
  predicate LexLe(a: string, b: string)
  {
    |a| == 0 || (|b| > 0 && (a[0] < b[0] || (a[0] == b[0] && LexLe(a[1..], b[1..]))))
  }

  lemma {:induction false} LexLeReflexive(a: string)
    ensures LexLe(a, a)
  {
    if |a| > 0 {
      LexLeReflexive(a[1..]);
    }
  }

  lemma {:induction false} LexLeTotal(a: string, b: string)
    ensures LexLe(a, b) || LexLe(b, a)
  {
    if |a| > 0 && |b| > 0 && a[0] == b[0] {
      LexLeTotal(a[1..], b[1..]);
    }
  }

  lemma {:induction false} LexLeAntisymmetric(a: string, b: string)
    requires LexLe(a, b) && LexLe(b, a)
    ensures a == b
  {
    if |a| > 0 && |b| > 0 {
      LexLeAntisymmetric(a[1..], b[1..]);
      assert a == [a[0]] + a[1..] && b == [b[0]] + b[1..];
    }
  }

  lemma {:induction false} LexLeTransitive(a: string, b: string, c: string)
    requires LexLe(a, b) && LexLe(b, c)
    ensures LexLe(a, c)
  {
    if |a| > 0 && |b| > 0 && |c| > 0 && a[0] == b[0] && b[0] == c[0] {
      LexLeTransitive(a[1..], b[1..], c[1..]);
    }
  }

  predicate SortedKeys(s: seq<string>) {
    forall i, j :: 0 <= i < j < |s| ==> LexLe(s[i], s[j])
  }

  /** x inserted into a sorted sequence before the first element above it. */
  function Insert(x: string, s: seq<string>): (r: seq<string>)
    requires SortedKeys(s)
    ensures SortedKeys(r) && multiset(r) == multiset(s) + multiset{x}
  {
    if |s| == 0 then [x]
    else if LexLe(x, s[0]) then
      BelowAll(x, s);
      [x] + s
    else
      LexLeTotal(x, s[0]);
      var rest := Insert(x, s[1..]);
      HeadBelowRest(x, s, rest);
      assert s == [s[0]] + s[1..];
      [s[0]] + rest
  }

  lemma BelowAll(x: string, s: seq<string>)
    requires SortedKeys(s) && |s| > 0 && LexLe(x, s[0])
    ensures forall j :: 0 <= j < |s| ==> LexLe(x, s[j])
  {
    forall j | 0 <= j < |s|
      ensures LexLe(x, s[j])
    {
      if j > 0 {
        LexLeTransitive(x, s[0], s[j]);
      }
    }
  }

  lemma HeadBelowRest(x: string, s: seq<string>, rest: seq<string>)
    requires SortedKeys(s) && |s| > 0 && LexLe(s[0], x)
    requires multiset(rest) == multiset(s[1..]) + multiset{x}
    ensures forall j :: 0 <= j < |rest| ==> LexLe(s[0], rest[j])
  {
    forall j | 0 <= j < |rest|
      ensures LexLe(s[0], rest[j])
    {
      assert rest[j] in multiset(rest);
      if rest[j] != x {
        assert rest[j] in multiset(s[1..]);
        var k :| 0 <= k < |s[1..]| && s[1..][k] == rest[j];
        assert s[k + 1] == rest[j];
      }
    }
  }

  /** sorted() on the selected keys: the same keys in string order. */
  function Sort(s: seq<string>): (r: seq<string>)
    ensures SortedKeys(r) && multiset(r) == multiset(s)
  {
    if |s| == 0 then []
    else
      assert s == s[..|s| - 1] + [s[|s| - 1]];
      Insert(s[|s| - 1], Sort(s[..|s| - 1]))
  }

  /** The sorted order is the only one: two sorted sequences with the same
      keys are equal, so Sort is exactly what sorted() returns. */
  lemma {:induction false} SortedUnique(a: seq<string>, b: seq<string>)
    requires SortedKeys(a) && SortedKeys(b) && multiset(a) == multiset(b)
    ensures a == b
  {
    if |a| > 0 {
      assert |b| == |multiset(b)| == |a|;
      SameFirst(a, b);
      assert a == [a[0]] + a[1..] && b == [b[0]] + b[1..];
      calc {
        multiset(a[1..]);
        multiset(a) - multiset{a[0]};
        multiset(b) - multiset{b[0]};
        multiset(b[1..]);
      }
      SortedUnique(a[1..], b[1..]);
    }
  }

  /** Sorted sequences with the same keys start with the same key. */
  lemma SameFirst(a: seq<string>, b: seq<string>)
    requires SortedKeys(a) && SortedKeys(b) && multiset(a) == multiset(b)
    requires |a| > 0 && |b| > 0
    ensures a[0] == b[0]
  {
    assert a[0] in multiset(b) && b[0] in multiset(a);
    var i :| 0 <= i < |b| && b[i] == a[0];
    var j :| 0 <= j < |a| && a[j] == b[0];
    LexLeReflexive(a[0]);
    LexLeReflexive(b[0]);
    assert LexLe(b[0], b[i]) && LexLe(a[0], a[j]);
    LexLeAntisymmetric(a[0], b[0]);
  }

  /** String order is not numeric order: node 10 of a subpath is visited
      before node 2. */
  lemma {:induction false} TenBeforeTwo()
    ensures Sort(["p:0:2", "p:0:10"]) == ["p:0:10", "p:0:2"]
  {
    var ten := "p:0:10";
    var two := "p:0:2";
    assert LexLe(ten, two) by {
      assert ten[1..][1..][1..][1..] == "10" && two[1..][1..][1..][1..] == "2";
    }
    assert !LexLe(two, ten) by {
      assert two[1..][1..][1..][1..] == "2" && ten[1..][1..][1..][1..] == "10";
    }
    SortedUnique(Sort([two, ten]), [ten, two]);
  }
}
