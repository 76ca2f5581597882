/** Canonical JSON (evals/job-ready-rag/freeze.ts, canonicalize and hashPopulation): objects keyed in sorted order,
undefined fields dropped, arrays in order. */
module CanonicalJson {
  import opened Wrappers

  /** A value; a field without one is undefined. Leaves are numbers, strings, booleans and null, compared for
  equality. */
  datatype Value = Leaf(leaf: Id) | Items(items: seq<Value>) | Record(fields: seq<Field>)

  datatype Field = Field(key: string, value: Option<Value>)

  /** No object has two fields of one key. */
  predicate Proper(v: Value) {
    match v
    case Leaf(_) => true
    case Items(items) => forall i :: 0 <= i < |items| ==> Proper(items[i])
    case Record(fields) =>
      && (forall i, j :: 0 <= i < j < |fields| ==> fields[i].key != fields[j].key)
      && (forall i :: 0 <= i < |fields| && fields[i].value.Some? ==> Proper(fields[i].value.value))
  }

  /** The same value, but for the order of object keys and for undefined fields. */
  ghost predicate Same(a: Value, b: Value)
    decreases a, 0
  {
    match a
    case Leaf(_) => a == b
    case Items(items) => b.Items? && |items| == |b.items| && forall i :: 0 <= i < |items| ==> Same(items[i], b.items[i])
    case Record(fields) =>
      && b.Record?
      && (forall i :: 0 <= i < |fields| && fields[i].value.Some?
           ==> Matched(fields[i].key, fields[i].value.value, b.fields))
      && (forall j :: 0 <= j < |b.fields| && b.fields[j].value.Some? ==> Defines(fields, b.fields[j].key))
  }

  /** Some field has this key, and the same value. */
  ghost predicate Matched(key: string, value: Value, fields: seq<Field>)
    decreases value, 1
  {
    exists j :: 0 <= j < |fields| && fields[j].key == key && fields[j].value.Some? && Same(value, fields[j].value.value)
  }

  predicate Defines(fields: seq<Field>, key: string) {
    exists i :: 0 <= i < |fields| && fields[i].key == key && fields[i].value.Some?
  }

  // Canonicalizing

  function InsertField(f: Field, s: seq<Field>): seq<Field> {
    if s == [] || Less(f.key, s[0].key) then [f] + s else [s[0]] + InsertField(f, s[1..])
  }

  function Canonicalize(v: Value): Value
    decreases v
  {
    match v
    case Leaf(_) => v
    case Items(items) => Items(CanonicalItems(items))
    case Record(fields) => Record(CanonicalFields(fields))
  }

  function CanonicalItems(items: seq<Value>): (r: seq<Value>)
    ensures |r| == |items|
    decreases items
  {
    if items == [] then [] else [Canonicalize(items[0])] + CanonicalItems(items[1..])
  }

  function CanonicalFields(fields: seq<Field>): seq<Field>
    decreases fields
  {
    if fields == [] then []
    else
      var rest := CanonicalFields(fields[1..]);
      if fields[0].value.None? then rest
      else InsertField(Field(fields[0].key, Some(Canonicalize(fields[0].value.value))), rest)
  }

  lemma {:induction false} ItemAt(items: seq<Value>, i: nat)
    requires i < |items|
    ensures CanonicalItems(items)[i] == Canonicalize(items[i])
  {
    if i > 0 { ItemAt(items[1..], i - 1); }
  }

  lemma {:induction false} InsertHas(f: Field, s: seq<Field>, x: Field)
    ensures x in InsertField(f, s) <==> x == f || x in s
  {
    if s != [] && !Less(f.key, s[0].key) {
      InsertHas(f, s[1..], x);
      assert s == [s[0]] + s[1..];
    }
  }

  predicate Rising(s: seq<Field>) { forall i, j :: 0 <= i < j < |s| ==> Less(s[i].key, s[j].key) }

  lemma {:induction false} InsertRises(f: Field, s: seq<Field>)
    requires Rising(s) && forall x :: x in s ==> x.key != f.key
    ensures Rising(InsertField(f, s))
  {
    if s == [] {
    } else if Less(f.key, s[0].key) {
      forall j | 0 <= j < |s| ensures Less(f.key, s[j].key) {
        if j > 0 { LessIsTransitive(f.key, s[0].key, s[j].key); }
      }
    } else {
      LessIsTotal(f.key, s[0].key);
      assert s[0] in s;
      InsertRises(f, s[1..]);
      var rest := InsertField(f, s[1..]);
      forall j | 0 <= j < |rest| ensures Less(s[0].key, rest[j].key) {
        InsertHas(f, s[1..], rest[j]);
        if rest[j] != f {
          var k :| 0 <= k < |s[1..]| && s[1..][k] == rest[j];
          assert s[k + 1] == rest[j];
        }
      }
    }
  }

  /** The fields of the canonical record are the defined ones, canonicalized. */
  ghost predicate Canonical(fields: seq<Field>, x: Field) {
    exists i :: 0 <= i < |fields| && CanonicalAt(fields, i, x)
  }

  predicate CanonicalAt(fields: seq<Field>, i: nat, x: Field)
    requires i < |fields|
  {
    fields[i].value.Some? && x == Field(fields[i].key, Some(Canonicalize(fields[i].value.value)))
  }

  lemma CanonicalFirst(fields: seq<Field>, x: Field)
    requires fields != []
    ensures Canonical(fields, x) <==> CanonicalAt(fields, 0, x) || Canonical(fields[1..], x)
  {
    if Canonical(fields, x) && !CanonicalAt(fields, 0, x) {
      var i :| 0 <= i < |fields| && CanonicalAt(fields, i, x);
      assert CanonicalAt(fields[1..], i - 1, x);
    }
    if Canonical(fields[1..], x) {
      var i :| 0 <= i < |fields[1..]| && CanonicalAt(fields[1..], i, x);
      assert CanonicalAt(fields, i + 1, x);
    }
  }

  lemma {:induction false} FieldsHave(fields: seq<Field>, x: Field)
    ensures x in CanonicalFields(fields) <==> Canonical(fields, x)
  {
    if fields != [] {
      FieldsHave(fields[1..], x);
      CanonicalFirst(fields, x);
      if fields[0].value.Some? {
        InsertHas(Field(fields[0].key, Some(Canonicalize(fields[0].value.value))), CanonicalFields(fields[1..]), x);
      }
    }
  }

  predicate DistinctKeys(fields: seq<Field>) { forall i, j :: 0 <= i < j < |fields| ==> fields[i].key != fields[j].key }

  lemma {:induction false} FieldsRise(fields: seq<Field>)
    requires DistinctKeys(fields)
    ensures Rising(CanonicalFields(fields))
  {
    if fields != [] {
      FieldsRise(fields[1..]);
      if fields[0].value.Some? {
        var rest := CanonicalFields(fields[1..]);
        forall x | x in rest ensures x.key != fields[0].key {
          FieldsHave(fields[1..], x);
          var i :| 0 <= i < |fields[1..]| && CanonicalAt(fields[1..], i, x);
          assert fields[i + 1].key == x.key;
        }
        InsertRises(Field(fields[0].key, Some(Canonicalize(fields[0].value.value))), rest);
      }
    }
  }

  // A rising list is determined by its elements

  lemma FirstIsLeast(s: seq<Field>, x: Field)
    requires Rising(s) && x in s && x != s[0]
    ensures Less(s[0].key, x.key) && x in s[1..]
  {
    var i :| 0 <= i < |s| && s[i] == x;
    assert s[1..][i - 1] == x;
  }

  lemma SameFirst(s: seq<Field>, t: seq<Field>)
    requires Rising(s) && Rising(t) && (forall x :: x in s <==> x in t) && s != []
    ensures t != [] && s[0] == t[0]
  {
    assert s[0] in t;
    if s[0] != t[0] {
      FirstIsLeast(t, s[0]);
      assert t[0] in s;
      FirstIsLeast(s, t[0]);
      LessIsTransitive(s[0].key, t[0].key, s[0].key);
      LessIsStrict(s[0].key);
    }
  }

  lemma RestHas(s: seq<Field>, x: Field)
    requires Rising(s) && s != []
    ensures x in s[1..] <==> x in s && x != s[0]
  {
    if x in s[1..] {
      var i :| 0 <= i < |s[1..]| && s[1..][i] == x;
      assert s[i + 1] == x && Less(s[0].key, x.key);
      LessIsStrict(x.key);
    }
    if x in s && x != s[0] { FirstIsLeast(s, x); }
  }

  lemma EmptyAlike(s: seq<Field>, t: seq<Field>)
    requires forall x :: x in s <==> x in t
    ensures s == [] ==> t == []
  {
    if t != [] { assert t[0] in s; }
  }

  lemma {:induction false} RisingIsUnique(s: seq<Field>, t: seq<Field>)
    requires Rising(s) && Rising(t) && forall x :: x in s <==> x in t
    ensures s == t
    decreases |s|
  {
    EmptyAlike(s, t);
    if s != [] {
      SameFirst(s, t);
      forall x ensures x in s[1..] <==> x in t[1..] {
        RestHas(s, x);
        RestHas(t, x);
      }
      RisingIsUnique(s[1..], t[1..]);
      assert s == [s[0]] + s[1..] && t == [t[0]] + t[1..];
    }
  }

  // The canonical form decides sameness

  lemma ItemsSame(a: Value, b: Value)
    requires a.Items? && b.Items? && |a.items| == |b.items|
    requires forall i :: 0 <= i < |a.items|
               ==> (Same(a.items[i], b.items[i]) <==> Canonicalize(a.items[i]) == Canonicalize(b.items[i]))
    ensures Same(a, b) <==> Canonicalize(a) == Canonicalize(b)
  {
    forall i | 0 <= i < |a.items|
      ensures CanonicalItems(a.items)[i] == Canonicalize(a.items[i])
        && CanonicalItems(b.items)[i] == Canonicalize(b.items[i])
    {
      ItemAt(a.items, i);
      ItemAt(b.items, i);
    }
  }

  ghost predicate Decided(a: Value, b: Value) { Same(a, b) <==> Canonicalize(a) == Canonicalize(b) }

  ghost predicate FieldsDecided(f: seq<Field>, g: seq<Field>) {
    forall i, j :: 0 <= i < |f| && 0 <= j < |g| && f[i].value.Some? && g[j].value.Some?
      ==> Decided(f[i].value.value, g[j].value.value)
  }

  lemma MatchedIsCanonical(f: seq<Field>, g: seq<Field>, i: nat)
    requires FieldsDecided(f, g) && i < |f| && f[i].value.Some?
    ensures Matched(f[i].key, f[i].value.value, g)
      <==> Canonical(g, Field(f[i].key, Some(Canonicalize(f[i].value.value))))
  {
    var x := Field(f[i].key, Some(Canonicalize(f[i].value.value)));
    if Matched(f[i].key, f[i].value.value, g) {
      var j :| 0 <= j < |g| && g[j].key == f[i].key && g[j].value.Some? && Same(f[i].value.value, g[j].value.value);
      assert Decided(f[i].value.value, g[j].value.value);
      assert CanonicalAt(g, j, x);
    }
    if Canonical(g, x) {
      var j :| 0 <= j < |g| && CanonicalAt(g, j, x);
      assert Decided(f[i].value.value, g[j].value.value);
    }
  }

  /** The match of a field is the field of its key. */
  lemma OnlyMatch(f: seq<Field>, g: seq<Field>, i: nat, j: nat)
    requires FieldsDecided(f, g) && i < |f| && j < |g| && DistinctKeys(g)
    requires f[i].value.Some? && g[j].value.Some? && f[i].key == g[j].key && Matched(f[i].key, f[i].value.value, g)
    ensures Canonicalize(f[i].value.value) == Canonicalize(g[j].value.value)
  {
    var k :| 0 <= k < |g| && g[k].key == f[i].key && g[k].value.Some? && Same(f[i].value.value, g[k].value.value);
    assert k == j;
    assert Decided(f[i].value.value, g[k].value.value);
  }

  lemma FieldCarries(f: seq<Field>, g: seq<Field>, x: Field)
    requires FieldsDecided(f, g) && Same(Record(f), Record(g)) && Canonical(f, x)
    ensures Canonical(g, x)
  {
    var i :| 0 <= i < |f| && CanonicalAt(f, i, x);
    MatchedIsCanonical(f, g, i);
  }

  lemma FieldReturns(f: seq<Field>, g: seq<Field>, x: Field)
    requires DistinctKeys(g) && FieldsDecided(f, g) && Same(Record(f), Record(g)) && Canonical(g, x)
    ensures Canonical(f, x)
  {
    var j :| 0 <= j < |g| && CanonicalAt(g, j, x);
    assert Defines(f, g[j].key);
    var i :| 0 <= i < |f| && f[i].key == g[j].key && f[i].value.Some?;
    OnlyMatch(f, g, i, j);
    assert CanonicalAt(f, i, x);
  }

  lemma SameIsCanonical(f: seq<Field>, g: seq<Field>)
    requires DistinctKeys(f) && DistinctKeys(g) && FieldsDecided(f, g) && Same(Record(f), Record(g))
    ensures CanonicalFields(f) == CanonicalFields(g)
  {
    FieldsRise(f);
    FieldsRise(g);
    forall x ensures x in CanonicalFields(f) <==> x in CanonicalFields(g) {
      FieldsHave(f, x);
      FieldsHave(g, x);
      if Canonical(f, x) { FieldCarries(f, g, x); }
      if Canonical(g, x) { FieldReturns(f, g, x); }
    }
    RisingIsUnique(CanonicalFields(f), CanonicalFields(g));
  }

  lemma CanonicalMatches(f: seq<Field>, g: seq<Field>, i: nat)
    requires FieldsDecided(f, g) && CanonicalFields(f) == CanonicalFields(g) && i < |f| && f[i].value.Some?
    ensures Matched(f[i].key, f[i].value.value, g)
  {
    var x := Field(f[i].key, Some(Canonicalize(f[i].value.value)));
    assert CanonicalAt(f, i, x);
    FieldsHave(f, x);
    FieldsHave(g, x);
    MatchedIsCanonical(f, g, i);
  }

  lemma CanonicalDefines(f: seq<Field>, g: seq<Field>, j: nat)
    requires CanonicalFields(f) == CanonicalFields(g) && j < |g| && g[j].value.Some?
    ensures Defines(f, g[j].key)
  {
    var x := Field(g[j].key, Some(Canonicalize(g[j].value.value)));
    assert CanonicalAt(g, j, x);
    FieldsHave(g, x);
    FieldsHave(f, x);
    var i :| 0 <= i < |f| && CanonicalAt(f, i, x);
  }

  lemma CanonicalIsSame(f: seq<Field>, g: seq<Field>)
    requires FieldsDecided(f, g) && CanonicalFields(f) == CanonicalFields(g)
    ensures Same(Record(f), Record(g))
  {
    forall i | 0 <= i < |f| && f[i].value.Some? ensures Matched(f[i].key, f[i].value.value, g) {
      CanonicalMatches(f, g, i);
    }
    forall j | 0 <= j < |g| && g[j].value.Some? ensures Defines(f, g[j].key) {
      CanonicalDefines(f, g, j);
    }
  }

  lemma RecordsSame(f: seq<Field>, g: seq<Field>)
    requires DistinctKeys(f) && DistinctKeys(g) && FieldsDecided(f, g)
    ensures Decided(Record(f), Record(g))
  {
    if Same(Record(f), Record(g)) { SameIsCanonical(f, g); }
    if CanonicalFields(f) == CanonicalFields(g) { CanonicalIsSame(f, g); }
  }

  /** Two values have one canonical form if and only if they are the same but for key order and undefined fields. */
  lemma {:induction false} CanonicalDecides(a: Value, b: Value)
    requires Proper(a) && Proper(b)
    ensures Same(a, b) <==> Canonicalize(a) == Canonicalize(b)
    decreases a
  {
    match a
    case Leaf(_) =>
    case Items(items) =>
      if b.Items? && |items| == |b.items| {
        forall i | 0 <= i < |items|
          ensures Same(items[i], b.items[i]) <==> Canonicalize(items[i]) == Canonicalize(b.items[i]) {
          CanonicalDecides(items[i], b.items[i]);
        }
        ItemsSame(a, b);
      }
    case Record(fields) =>
      if b.Record? {
        forall i, j | 0 <= i < |fields| && 0 <= j < |b.fields| && fields[i].value.Some? && b.fields[j].value.Some?
          ensures Decided(fields[i].value.value, b.fields[j].value.value)
        {
          CanonicalDecides(fields[i].value.value, b.fields[j].value.value);
        }
        RecordsSame(fields, b.fields);
      }
  }

  /** Hashing the text of canonical forms. */
  datatype Digest = Digest(stringify: Value -> string, sha256: string -> string)

  /** The text of a value's canonical form. */
  function CanonicalText(d: Digest, v: Value): string { d.stringify(Canonicalize(v)) }

  /** Different canonical forms have different texts, and no two such texts collide. Nothing is asked of values that are
  not canonical: those with undefined fields, say, which the serializer drops. */
  ghost predicate Injective(d: Digest) {
    && (forall a, b :: Proper(a) && Proper(b) && CanonicalText(d, a) == CanonicalText(d, b)
         ==> Canonicalize(a) == Canonicalize(b))
    && (forall a, b :: Proper(a) && Proper(b) && HashPopulation(d, a) == HashPopulation(d, b) ==>
          CanonicalText(d, a) == CanonicalText(d, b))
  }

  function HashPopulation(d: Digest, v: Value): string { d.sha256(CanonicalText(d, v)) }

  /** The hash tells exactly the values apart that differ in more than key order and undefined fields. */
  lemma HashDecides(d: Digest, a: Value, b: Value)
    requires Injective(d) && Proper(a) && Proper(b)
    ensures HashPopulation(d, a) == HashPopulation(d, b) <==> Same(a, b)
  {
    CanonicalDecides(a, b);
  }

  lemma {:induction false} CanonicalItemsProper(items: seq<Value>)
    requires forall i :: 0 <= i < |items| ==> Proper(items[i])
    ensures forall i :: 0 <= i < |items| ==> Proper(CanonicalItems(items)[i])
    decreases items
  {
    forall i | 0 <= i < |items| ensures Proper(CanonicalItems(items)[i]) {
      ItemAt(items, i);
      CanonicalIsProper(items[i]);
    }
  }

  lemma RisingIsDistinct(s: seq<Field>)
    requires Rising(s)
    ensures DistinctKeys(s)
  {
    forall i, j | 0 <= i < j < |s| ensures s[i].key != s[j].key {
      LessIsStrict(s[i].key);
    }
  }

  lemma {:induction false} CanonicalIsProper(v: Value)
    requires Proper(v)
    ensures Proper(Canonicalize(v))
    decreases v
  {
    match v
    case Leaf(_) =>
    case Items(items) => CanonicalItemsProper(items);
    case Record(fields) =>
      var s := CanonicalFields(fields);
      FieldsRise(fields);
      RisingIsDistinct(s);
      forall i | 0 <= i < |s| && s[i].value.Some? ensures Proper(s[i].value.value) {
        FieldsHave(fields, s[i]);
        var j :| 0 <= j < |fields| && CanonicalAt(fields, j, s[i]);
        CanonicalIsProper(fields[j].value.value);
      }
  }

  /** A canonical form is the same value as the original, and is its own canonical form. */
  lemma {:induction false} CanonicalIsFixed(v: Value)
    requires Proper(v)
    ensures Canonicalize(Canonicalize(v)) == Canonicalize(v) && Same(v, Canonicalize(v))
    decreases v
  {
    CanonicalIsProper(v);
    match v
    case Leaf(_) =>
    case Items(items) =>
      forall i | 0 <= i < |items| ensures CanonicalItems(CanonicalItems(items))[i] == CanonicalItems(items)[i] {
        ItemAt(items, i);
        ItemAt(CanonicalItems(items), i);
        CanonicalIsFixed(items[i]);
      }
      CanonicalDecides(v, Canonicalize(v));
    case Record(fields) =>
      forall i | 0 <= i < |fields| && fields[i].value.Some?
        ensures Canonicalize(Canonicalize(fields[i].value.value)) == Canonicalize(fields[i].value.value)
      {
        CanonicalIsFixed(fields[i].value.value);
      }
      CanonicalTwice(fields);
      CanonicalDecides(v, Canonicalize(v));
  }

  lemma CanonicalTwice(fields: seq<Field>)
    requires DistinctKeys(fields)
    requires forall i :: 0 <= i < |fields| && fields[i].value.Some? ==>
               Canonicalize(Canonicalize(fields[i].value.value)) == Canonicalize(fields[i].value.value)
    ensures CanonicalFields(CanonicalFields(fields)) == CanonicalFields(fields)
  {
    var s := CanonicalFields(fields);
    FieldsRise(fields);
    RisingIsDistinct(s);
    FieldsRise(s);
    forall x ensures x in CanonicalFields(s) <==> x in s {
      FieldsHave(s, x);
      if x in s { AgainItself(fields, x); }
      if Canonical(s, x) {
        var i :| 0 <= i < |s| && CanonicalAt(s, i, x);
        AgainItself(fields, s[i]);
      }
    }
    RisingIsUnique(CanonicalFields(s), s);
  }

  lemma AgainItself(fields: seq<Field>, x: Field)
    requires x in CanonicalFields(fields)
    requires forall i :: 0 <= i < |fields| && fields[i].value.Some? ==>
               Canonicalize(Canonicalize(fields[i].value.value)) == Canonicalize(fields[i].value.value)
    ensures x.value.Some? && Canonicalize(x.value.value) == x.value.value && Canonical(CanonicalFields(fields), x)
  {
    FieldsHave(fields, x);
    var i :| 0 <= i < |fields| && CanonicalAt(fields, i, x);
    var s := CanonicalFields(fields);
    var k :| 0 <= k < |s| && s[k] == x;
    assert CanonicalAt(s, k, x);
  }

  // The loops of canonicalize

  /** The fields in the order of Object.keys(record).sort(). */
  function SortFields(fields: seq<Field>): seq<Field> {
    if fields == [] then [] else InsertField(fields[0], SortFields(fields[1..]))
  }

  lemma {:induction false} SortedHave(fields: seq<Field>, x: Field)
    ensures x in SortFields(fields) <==> x in fields
  {
    if fields != [] {
      SortedHave(fields[1..], x);
      InsertHas(fields[0], SortFields(fields[1..]), x);
      assert fields == [fields[0]] + fields[1..];
    }
  }

  lemma {:induction false} SortedRise(fields: seq<Field>)
    requires DistinctKeys(fields)
    ensures Rising(SortFields(fields))
  {
    if fields != [] {
      SortedRise(fields[1..]);
      forall x | x in SortFields(fields[1..]) ensures x.key != fields[0].key {
        SortedHave(fields[1..], x);
        var i :| 0 <= i < |fields[1..]| && fields[1..][i] == x;
        assert fields[i + 1] == x;
      }
      InsertRises(fields[0], SortFields(fields[1..]));
    }
  }

  lemma CanonicalOfSame(f: seq<Field>, g: seq<Field>, x: Field)
    requires (forall y :: y in f ==> y in g) && Canonical(f, x)
    ensures Canonical(g, x)
  {
    var i :| 0 <= i < |f| && CanonicalAt(f, i, x);
    assert f[i] in g;
    var j :| 0 <= j < |g| && g[j] == f[i];
    assert CanonicalAt(g, j, x);
  }

  /** What the loop over the sorted keys has built after the first i. */
  ghost predicate Built(sorted: seq<Field>, i: nat, out: seq<Field>)
    requires i <= |sorted|
  {
    && Rising(out)
    && (forall x :: x in out <==> Canonical(sorted[..i], x))
    && (forall x :: x in out && i < |sorted| ==> Less(x.key, sorted[i].key))
  }

  lemma BuiltLast(sorted: seq<Field>, i: nat, x: Field)
    requires i < |sorted|
    ensures Canonical(sorted[..i + 1], x) <==> Canonical(sorted[..i], x) || CanonicalAt(sorted, i, x)
  {
    if Canonical(sorted[..i + 1], x) && !CanonicalAt(sorted, i, x) {
      var k :| 0 <= k < |sorted[..i + 1]| && CanonicalAt(sorted[..i + 1], k, x);
      assert CanonicalAt(sorted[..i], k, x);
    }
    if Canonical(sorted[..i], x) {
      var k :| 0 <= k < |sorted[..i]| && CanonicalAt(sorted[..i], k, x);
      assert CanonicalAt(sorted[..i + 1], k, x);
    }
    if CanonicalAt(sorted, i, x) { assert CanonicalAt(sorted[..i + 1], i, x); }
  }

  lemma BuiltStep(sorted: seq<Field>, i: nat, out: seq<Field>, more: seq<Field>)
    requires Rising(sorted) && i < |sorted| && Built(sorted, i, out)
    requires if sorted[i].value.None? then more == []
      else more == [Field(sorted[i].key, Some(Canonicalize(sorted[i].value.value)))]
    ensures Built(sorted, i + 1, out + more)
  {
    forall x ensures x in out + more <==> Canonical(sorted[..i + 1], x) {
      BuiltLast(sorted, i, x);
    }
    forall a, b | 0 <= a < b < |out + more| ensures Less((out + more)[a].key, (out + more)[b].key) {
      assert a < |out| && (out + more)[a] == out[a];
      if b < |out| { assert (out + more)[b] == out[b]; } else { assert out[a] in out; }
    }
    forall x | x in out + more && i + 1 < |sorted| ensures Less(x.key, sorted[i + 1].key) {
      if x in out { LessIsTransitive(x.key, sorted[i].key, sorted[i + 1].key); }
    }
  }

  lemma BuiltAll(fields: seq<Field>, out: seq<Field>)
    requires DistinctKeys(fields) && Built(SortFields(fields), |SortFields(fields)|, out)
    ensures out == CanonicalFields(fields)
  {
    var sorted := SortFields(fields);
    TakeAll(sorted);
    FieldsRise(fields);
    forall x { SortedHave(fields, x); }
    forall x ensures x in out <==> x in CanonicalFields(fields) {
      FieldsHave(fields, x);
      if Canonical(sorted, x) { CanonicalOfSame(sorted, fields, x); }
      if Canonical(fields, x) { CanonicalOfSame(fields, sorted, x); }
    }
    RisingIsUnique(out, CanonicalFields(fields));
  }

  /** canonicalize */
  method CanonicalizeValue(v: Value) returns (r: Value)
    requires Proper(v)
    ensures r == Canonicalize(v)
    decreases v
  {
    match v
    case Leaf(_) => r := v;
    case Items(items) =>
      var out: seq<Value> := [];
      for i := 0 to |items|
        invariant |out| == i && forall k :: 0 <= k < i ==> out[k] == Canonicalize(items[k])
      {
        var item := CanonicalizeValue(items[i]);
        out := out + [item];
      }
      forall k | 0 <= k < |items| ensures out[k] == CanonicalItems(items)[k] {
        ItemAt(items, k);
      }
      r := Items(out);
    case Record(fields) =>
      var sorted := SortFields(fields);
      SortedRise(fields);
      var out: seq<Field> := [];
      for i := 0 to |sorted|
        invariant Built(sorted, i, out)
      {
        var more: seq<Field> := [];
        if sorted[i].value.Some? {
          SortedHave(fields, sorted[i]);
          ghost var j: nat :| j < |fields| && fields[j] == sorted[i];
          assert fields[j].value.value < v;
          var value := CanonicalizeValue(sorted[i].value.value);
          more := [Field(sorted[i].key, Some(value))];
        }
        BuiltStep(sorted, i, out, more);
        out := out + more;
      }
      BuiltAll(fields, out);
      r := Record(out);
  }
}
