/** One rendering per JSON value: key order never shows, and nothing else is lost. */
module CanonicalProofs {
  import opened CodeUnits
  import opened CanonicalJson
  import opened CanonicalText

  // ---- Sorting by key ----

  lemma LessIrreflexive(a: Text)
    ensures !Less(a, a)
  {
  }

  lemma {:induction false} LessTransitive(a: Text, b: Text, c: Text)
    requires Less(a, b) && Less(b, c)
    ensures Less(a, c)
    decreases |b|
  {
    if a != [] && b[0] == c[0] && a[0] == b[0] {
      LessTransitive(a[1..], b[1..], c[1..]);
    }
  }

  lemma {:induction false} LessTotal(a: Text, b: Text)
    ensures a == b || Less(a, b) || Less(b, a)
    decreases |a|
  {
    if a != [] && b != [] && a[0] == b[0] {
      LessTotal(a[1..], b[1..]);
      assert a == [a[0]] + a[1..] && b == [b[0]] + b[1..];
    }
  }

  predicate Ascending(fields: seq<Field>) {
    forall i, j :: 0 <= i < j < |fields| ==> Less(fields[i].key, fields[j].key)
  }

  lemma {:induction false} InsertHas(f: Field, sorted: seq<Field>)
    ensures |Insert(f, sorted)| == |sorted| + 1
    ensures forall g :: g in Insert(f, sorted) <==> g == f || g in sorted
  {
    if sorted != [] && !Less(f.key, sorted[0].key) {
      InsertHas(f, sorted[1..]);
      assert sorted == [sorted[0]] + sorted[1..];
    }
  }

  lemma {:induction false} SortHas(fields: seq<Field>)
    ensures |Sort(fields)| == |fields|
    ensures forall g :: g in Sort(fields) <==> g in fields
  {
    if fields != [] {
      SortHas(fields[1..]);
      InsertHas(fields[0], Sort(fields[1..]));
      assert fields == [fields[0]] + fields[1..];
    }
  }

  lemma {:induction false} InsertAscends(f: Field, sorted: seq<Field>)
    requires Ascending(sorted) && forall g :: g in sorted ==> g.key != f.key
    ensures Ascending(Insert(f, sorted))
  {
    if sorted != [] {
      LessTotal(f.key, sorted[0].key);
      if Less(f.key, sorted[0].key) {
        forall j | 0 < j < |sorted| ensures Less(f.key, sorted[j].key) {
          LessTransitive(f.key, sorted[0].key, sorted[j].key);
        }
      } else {
        InsertAscends(f, sorted[1..]);
        InsertHas(f, sorted[1..]);
        var rest := Insert(f, sorted[1..]);
        forall j | 0 <= j < |rest| ensures Less(sorted[0].key, rest[j].key) {
          assert rest[j] in rest;
        }
      }
    }
  }

  lemma {:induction false} SortAscends(fields: seq<Field>)
    requires Distinct(fields)
    ensures Ascending(Sort(fields))
  {
    if fields != [] {
      SortAscends(fields[1..]);
      SortHas(fields[1..]);
      InsertAscends(fields[0], Sort(fields[1..]));
    }
  }

  lemma AscendingDistinct(fields: seq<Field>)
    requires Ascending(fields)
    ensures Distinct(fields)
  {
    forall i, j | 0 <= i < j < |fields| ensures fields[i].key != fields[j].key {
      LessIrreflexive(fields[i].key);
    }
  }

  /** A set of fields can be listed in ascending order in one way only. */
  lemma {:induction false} AscendingUnique(a: seq<Field>, b: seq<Field>)
    requires Ascending(a) && Ascending(b) && forall f :: f in a <==> f in b
    ensures a == b
  {
    assert b == [] || b[0] in b;
    if a != [] {
      assert a[0] in a && a[0] in b;
      assert b[0] in b && b[0] in a;
      assert a[0] == b[0] by {
        LeastFirst(a, b[0]);
        LeastFirst(b, a[0]);
        if a[0] != b[0] {
          LessTransitive(a[0].key, b[0].key, a[0].key);
          LessIrreflexive(a[0].key);
        }
      }
      forall f ensures f in a[1..] <==> f in b[1..] {
        HeadOnce(a, f);
        HeadOnce(b, f);
      }
      AscendingUnique(a[1..], b[1..]);
      assert a == [a[0]] + a[1..] && b == [b[0]] + b[1..];
    }
  }

  lemma LeastFirst(a: seq<Field>, f: Field)
    requires Ascending(a) && f in a
    ensures f == a[0] || Less(a[0].key, f.key)
  {
  }

  lemma HeadOnce(a: seq<Field>, f: Field)
    requires Ascending(a) && a != []
    ensures f in a[1..] <==> f in a && f != a[0]
  {
    AscendingDistinct(a);
  }

  // ---- Meaning ----

  lemma {:induction false} MeaningOfKeys(fields: seq<Field>)
    requires Distinct(fields)
    ensures forall f :: f in fields ==> f.key in MeaningOf(fields) && MeaningOf(fields)[f.key] == Meaning(f.value)
    ensures forall k :: k in MeaningOf(fields) ==> exists i :: 0 <= i < |fields| && fields[i].key == k
  {
    if fields != [] {
      MeaningOfKeys(fields[1..]);
      forall k | k in MeaningOf(fields) ensures exists i :: 0 <= i < |fields| && fields[i].key == k {
        if k == fields[0].key {
          assert fields[0].key == k;
        } else {
          var i :| 0 <= i < |fields[1..]| && fields[1..][i].key == k;
          assert fields[i + 1].key == k;
        }
      }
    }
  }

  /** Two lists of the same fields, in any order, mean the same object. */
  lemma MeaningOfSame(a: seq<Field>, b: seq<Field>)
    requires Distinct(a) && Distinct(b) && forall f :: f in a <==> f in b
    ensures MeaningOf(a) == MeaningOf(b)
  {
    MeaningOfKeys(a);
    MeaningOfKeys(b);
    forall k ensures k in MeaningOf(a) <==> k in MeaningOf(b) {
      if k in MeaningOf(a) {
        var i :| 0 <= i < |a| && a[i].key == k;
        assert a[i] in b;
      }
      if k in MeaningOf(b) {
        var i :| 0 <= i < |b| && b[i].key == k;
        assert b[i] in a;
      }
    }
    forall k | k in MeaningOf(a) ensures MeaningOf(a)[k] == MeaningOf(b)[k] {
      var i :| 0 <= i < |a| && a[i].key == k;
      assert a[i] in b;
    }
  }

  predicate Arranged(v: Value) {
    match v
    case List(items) => forall i :: 0 <= i < |items| ==> Arranged(items[i])
    case Dict(fields) => Ascending(fields) && forall i :: 0 <= i < |fields| ==> Arranged(fields[i].value)
    case _ => true
  }

  /** Arranging keeps a value's meaning. */
  lemma {:induction false} ArrangeKeeps(v: Value)
    requires Plain(v)
    ensures Plain(Arrange(v)) && Arranged(Arrange(v)) && Meaning(Arrange(v)) == Meaning(v)
  {
    match v
    case List(items) =>
      forall i | 0 <= i < |items| ensures Plain(Arrange(items[i])) && Arranged(Arrange(items[i]))
                                          && Meaning(Arrange(items[i])) == Meaning(items[i]) {
        ArrangeKeeps(items[i]);
      }
    case Dict(fields) =>
      forall i | 0 <= i < |fields| ensures Plain(Arrange(fields[i].value)) && Arranged(Arrange(fields[i].value))
                                           && Meaning(Arrange(fields[i].value)) == Meaning(fields[i].value) {
        ArrangeKeeps(fields[i].value);
      }
      ArrangeDict(fields);
    case _ =>
  }

  lemma ArrangeDict(fields: seq<Field>)
    requires Distinct(fields)
    requires forall i :: 0 <= i < |fields| ==>
               Plain(Arrange(fields[i].value)) && Arranged(Arrange(fields[i].value))
               && Meaning(Arrange(fields[i].value)) == Meaning(fields[i].value)
    ensures Plain(Arrange(Dict(fields))) && Arranged(Arrange(Dict(fields)))
    ensures Meaning(Arrange(Dict(fields))) == Meaning(Dict(fields))
  {
    var mapped := ArrangeFields(fields);
    var sorted := Sort(mapped);
    SortHas(mapped);
    SortAscends(mapped);
    AscendingDistinct(sorted);
    forall i | 0 <= i < |sorted| ensures Plain(sorted[i].value) && Arranged(sorted[i].value) {
      assert sorted[i] in mapped;
    }
    MeaningOfSame(sorted, mapped);
    MeaningOfMapped(fields, mapped);
  }

  lemma {:induction false} MeaningOfMapped(a: seq<Field>, b: seq<Field>)
    requires |a| == |b|
    requires forall i :: 0 <= i < |a| ==> a[i].key == b[i].key && Meaning(a[i].value) == Meaning(b[i].value)
    ensures MeaningOf(a) == MeaningOf(b)
  {
    if a != [] {
      MeaningOfMapped(a[1..], b[1..]);
    }
  }

  /** Arranged values with the same meaning are the same. */
  lemma {:induction false} ArrangedUnique(v: Value, w: Value)
    requires Plain(v) && Plain(w) && Arranged(v) && Arranged(w) && Meaning(v) == Meaning(w)
    ensures v == w
    decreases v
  {
    match v
    case List(items) =>
      var a, b := Meaning(v).items, Meaning(w).items;
      assert |items| == |a| == |b| == |w.items|;
      forall i | 0 <= i < |items| ensures items[i] == w.items[i] {
        assert a[i] == b[i];
        ArrangedUnique(items[i], w.items[i]);
      }
    case Dict(fields) =>
      MeaningOfKeys(fields);
      MeaningOfKeys(w.fields);
      forall f | f in fields ensures f in w.fields {
        var j :| 0 <= j < |w.fields| && w.fields[j].key == f.key;
        assert w.fields[j] in w.fields;
        ArrangedUnique(f.value, w.fields[j].value);
      }
      forall g | g in w.fields ensures g in fields {
        var i :| 0 <= i < |fields| && fields[i].key == g.key;
        assert fields[i] in fields;
        ArrangedUnique(fields[i].value, g.value);
      }
      AscendingUnique(fields, w.fields);
    case _ =>
  }

  /** On plain values, equal canonical text means equal JSON values and conversely. */
  lemma PrintFaithful(v: Value, w: Value)
    requires Plain(v) && Plain(w)
    ensures Print(v) == Print(w) <==> Meaning(v) == Meaning(w)
  {
    ArrangeKeeps(v);
    ArrangeKeeps(w);
    if Print(v) == Print(w) {
      assert Print(v) + [] == Print(w) + [];
      RenderCut(Arrange(v), Arrange(w), [], []);
    }
    if Meaning(v) == Meaning(w) {
      ArrangedUnique(Arrange(v), Arrange(w));
    }
  }

  // ---- Normalization loss ----

  /** What canonicalization accepts before budgets: absent fields and negative zero are tolerated, with loss. */
  predicate Reviewable(v: Value) {
    match v
    case NegativeZero => true
    case Number(token) => NumberToken(token)
    case List(items) => forall i :: 0 <= i < |items| ==> Reviewable(items[i])
    case Dict(fields) =>
      Distinct(fields) && forall i :: 0 <= i < |fields| ==> fields[i].value.Undefined? || Reviewable(fields[i].value)
    case Undefined => false
    case Unreviewable => false
    case _ => true
  }

  /** The flag `normalizationLoss` of the traversal. */
  predicate Loss(v: Value) {
    match v
    case NegativeZero => true
    case List(items) => exists i :: 0 <= i < |items| && Loss(items[i])
    case Dict(fields) => exists i :: 0 <= i < |fields| && (fields[i].value.Undefined? || Loss(fields[i].value))
    case _ => false
  }

  function Strip(v: Value): Value {
    match v
    case NegativeZero => Number([ZERO])
    case List(items) => List(StripItems(items))
    case Dict(fields) => Dict(StripFields(fields))
    case _ => v
  }

  function StripItems(items: seq<Value>): (r: seq<Value>)
    ensures |r| == |items| && forall i :: 0 <= i < |items| ==> r[i] == Strip(items[i])
  {
    if items == [] then [] else [Strip(items[0])] + StripItems(items[1..])
  }

  function StripFields(fields: seq<Field>): seq<Field> {
    if fields == [] then []
    else if fields[0].value.Undefined? then StripFields(fields[1..])
    else [Field(fields[0].key, Strip(fields[0].value))] + StripFields(fields[1..])
  }

  lemma {:induction false} StripFieldsFrom(fields: seq<Field>)
    ensures forall g :: g in StripFields(fields) ==>
              exists i :: 0 <= i < |fields| && !fields[i].value.Undefined?
                          && g == Field(fields[i].key, Strip(fields[i].value))
  {
    if fields != [] {
      StripFieldsFrom(fields[1..]);
      forall g | g in StripFields(fields)
        ensures exists i :: 0 <= i < |fields| && !fields[i].value.Undefined?
                          && g == Field(fields[i].key, Strip(fields[i].value))
      {
        if g in StripFields(fields[1..]) {
          var i :| 0 <= i < |fields[1..]| && !fields[1..][i].value.Undefined?
                   && g == Field(fields[1..][i].key, Strip(fields[1..][i].value));
          assert g == Field(fields[i + 1].key, Strip(fields[i + 1].value));
        } else {
          assert g == Field(fields[0].key, Strip(fields[0].value));
        }
      }
    }
  }

  lemma {:induction false} StripDistinct(fields: seq<Field>)
    requires Distinct(fields)
    ensures Distinct(StripFields(fields))
  {
    if fields != [] {
      StripDistinct(fields[1..]);
      StripFieldsFrom(fields[1..]);
      var rest := StripFields(fields[1..]);
      forall j | 0 <= j < |rest| ensures rest[j].key != fields[0].key {
        assert rest[j] in rest;
      }
    }
  }

  lemma {:induction false} StripPlain(v: Value)
    requires Reviewable(v)
    ensures Plain(Strip(v))
  {
    match v
    case List(items) =>
      forall i | 0 <= i < |items| ensures Plain(Strip(items[i])) {
        StripPlain(items[i]);
      }
    case Dict(fields) =>
      StripDistinct(fields);
      StripFieldsFrom(fields);
      forall i | 0 <= i < |fields| && !fields[i].value.Undefined? ensures Plain(Strip(fields[i].value)) {
        StripPlain(fields[i].value);
      }
      var rest := StripFields(fields);
      forall j | 0 <= j < |rest| ensures Plain(rest[j].value) {
        assert rest[j] in rest;
      }
    case _ =>
  }

  lemma {:induction false} RenderStrip(v: Value)
    ensures Render(Strip(v)) == Render(v)
    decreases v
  {
    match v
    case List(items) =>
      if items != [] {
        RenderStrip(items[0]);
        RenderStripItems(items[1..]);
        assert StripItems(items)[1..] == StripItems(items[1..]);
      }
    case Dict(fields) => RenderStripFields(fields, []);
    case _ =>
  }

  lemma {:induction false} RenderStripItems(items: seq<Value>)
    ensures RenderItems(StripItems(items)) == RenderItems(items)
    decreases items
  {
    if items != [] {
      RenderStrip(items[0]);
      RenderStripItems(items[1..]);
      assert StripItems(items)[1..] == StripItems(items[1..]);
    }
  }

  lemma {:induction false} RenderStripFields(fields: seq<Field>, separator: Text)
    ensures RenderFields(StripFields(fields), separator) == RenderFields(fields, separator)
    decreases fields
  {
    if fields != [] {
      if fields[0].value.Undefined? {
        RenderStripFields(fields[1..], separator);
      } else {
        RenderStrip(fields[0].value);
        RenderStripFields(fields[1..], [COMMA]);
        NeverUndefined(fields[0].value);
        assert StripFields(fields)[1..] == StripFields(fields[1..]);
      }
    }
  }

  lemma NeverUndefined(v: Value)
    ensures Strip(v).Undefined? <==> v.Undefined?
    ensures Arrange(v).Undefined? <==> v.Undefined?
  {
  }

  /** Dropping absent fields commutes with sorting. */
  lemma {:induction false} StripInsert(f: Field, sorted: seq<Field>)
    requires Ascending(sorted)
    ensures StripFields(Insert(f, sorted))
         == if f.value.Undefined? then StripFields(sorted)
            else Insert(Field(f.key, Strip(f.value)), StripFields(sorted))
  {
    if sorted == [] {
      assert [f][1..] == [];
    } else if Less(f.key, sorted[0].key) {
      assert ([f] + sorted)[1..] == sorted;
      var kept := StripFields(sorted);
      if kept != [] {
        StripFieldsFrom(sorted);
        assert kept[0] in kept;
        var i :| 0 <= i < |sorted| && !sorted[i].value.Undefined?
                 && kept[0] == Field(sorted[i].key, Strip(sorted[i].value));
        if i > 0 {
          LessTransitive(f.key, sorted[0].key, sorted[i].key);
        }
      }
    } else {
      StripInsert(f, sorted[1..]);
      assert Insert(f, sorted)[1..] == Insert(f, sorted[1..]);
      var head := Field(sorted[0].key, Strip(sorted[0].value));
      assert !sorted[0].value.Undefined? ==> StripFields(sorted) == [head] + StripFields(sorted[1..])
                                             && StripFields(sorted)[1..] == StripFields(sorted[1..]);
    }
  }

  lemma {:induction false} StripSort(fields: seq<Field>)
    requires Distinct(fields)
    ensures StripFields(Sort(fields)) == Sort(StripFields(fields))
  {
    if fields != [] {
      StripSort(fields[1..]);
      SortAscends(fields[1..]);
      StripInsert(fields[0], Sort(fields[1..]));
      assert !fields[0].value.Undefined? ==> StripFields(fields)[1..] == StripFields(fields[1..]);
    }
  }

  lemma {:induction false} StripArrange(v: Value)
    requires Reviewable(v)
    ensures Strip(Arrange(v)) == Arrange(Strip(v))
    decreases v, 0
  {
    match v
    case List(items) =>
      forall i | 0 <= i < |items| ensures Strip(Arrange(items[i])) == Arrange(Strip(items[i])) {
        StripArrange(items[i]);
      }
      assert StripItems(ArrangeItems(items)) == ArrangeItems(StripItems(items));
    case Dict(fields) =>
      forall i | 0 <= i < |fields| && !fields[i].value.Undefined?
        ensures Strip(Arrange(fields[i].value)) == Arrange(Strip(fields[i].value)) {
        StripArrange(fields[i].value);
      }
      StripArrangeFields(fields);
      StripSort(ArrangeFields(fields));
    case _ =>
  }

  lemma {:induction false} StripArrangeFields(fields: seq<Field>)
    requires forall i :: 0 <= i < |fields| && !fields[i].value.Undefined? ==>
               Strip(Arrange(fields[i].value)) == Arrange(Strip(fields[i].value))
    ensures StripFields(ArrangeFields(fields)) == ArrangeFields(StripFields(fields))
  {
    if fields != [] {
      StripArrangeFields(fields[1..]);
      NeverUndefined(fields[0].value);
      assert ArrangeFields(fields)[1..] == ArrangeFields(fields[1..]);
      assert !fields[0].value.Undefined? ==> StripFields(fields)[1..] == StripFields(fields[1..]);
    }
  }

  /** Normalization never shows in the text: it renders the value with absent fields dropped and zeros unsigned. */
  lemma PrintStrips(v: Value)
    requires Reviewable(v)
    ensures Print(v) == Print(Strip(v))
  {
    StripArrange(v);
    RenderStrip(Arrange(v));
  }

  /** The loss flag is raised exactly when normalization changes something. */
  lemma {:induction false} LossExact(v: Value)
    ensures Loss(v) <==> Strip(v) != v
    decreases v
  {
    match v
    case List(items) =>
      forall i | 0 <= i < |items| ensures Loss(items[i]) <==> Strip(items[i]) != items[i] {
        LossExact(items[i]);
      }
      if Strip(v) != v {
        assert StripItems(items) != items;
      }
    case Dict(fields) =>
      forall i | 0 <= i < |fields| ensures Loss(fields[i].value) <==> Strip(fields[i].value) != fields[i].value {
        LossExact(fields[i].value);
      }
      StripFieldsExact(fields);
    case _ =>
  }

  lemma {:induction false} StripFieldsExact(fields: seq<Field>)
    ensures |StripFields(fields)| <= |fields|
    ensures StripFields(fields) == fields
       <==> forall i :: 0 <= i < |fields| ==> !fields[i].value.Undefined? && Strip(fields[i].value) == fields[i].value
  {
    if fields != [] {
      StripFieldsExact(fields[1..]);
      var rest := fields[1..];
      assert fields == [fields[0]] + rest;
      if forall i :: 0 <= i < |fields| ==> !fields[i].value.Undefined? && Strip(fields[i].value) == fields[i].value {
        assert forall i :: 0 <= i < |rest| ==> rest[i] == fields[i + 1];
      } else if StripFields(rest) == rest {
        assert forall i :: 0 < i < |fields| ==> fields[i] == rest[i - 1];
        if !fields[0].value.Undefined? {
          assert StripFields(fields)[0] == Field(fields[0].key, Strip(fields[0].value));
        }
      } else if !fields[0].value.Undefined? {
        assert StripFields(fields)[1..] == StripFields(rest);
      }
    }
  }

  /** Canonical text tells apart exactly the JSON values that normalization leaves apart. */
  lemma CanonicalFaithful(v: Value, w: Value)
    requires Reviewable(v) && Reviewable(w)
    ensures Print(v) == Print(w) <==> Meaning(Strip(v)) == Meaning(Strip(w))
    ensures !Loss(v) && !Loss(w) ==> (Print(v) == Print(w) <==> Meaning(v) == Meaning(w))
  {
    PrintStrips(v);
    PrintStrips(w);
    StripPlain(v);
    StripPlain(w);
    PrintFaithful(Strip(v), Strip(w));
    LossExact(v);
    LossExact(w);
  }
}
