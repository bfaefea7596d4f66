/** The bounded traversal that prints canonical JSON, and the identity built from its text. */
module CanonicalPrinter {
  import opened CodeUnits
  import opened Wrappers
  import opened CanonicalJson
  import opened CanonicalText
  import opened CanonicalProofs

  const MAX_DEPTH := 32
  const MAX_NODES := 4096
  const MAX_BYTES := 8388608

  /** UTF-8 size; a surrogate pair takes four bytes, two for each half. */
  function Utf8(text: Text): (n: nat)
    ensures n >= |text|
  {
    if text == [] then 0
    else
      (if text[0] < 0x80 then 1 else if text[0] < 0x800 || High(text[0]) || Low(text[0]) then 2 else 3)
      + Utf8(text[1..])
  }

  lemma {:induction false} Utf8Joins(a: Text, b: Text)
    ensures Utf8(a + b) == Utf8(a) + Utf8(b)
  {
    if a == [] {
      assert a + b == b;
    } else {
      Utf8Joins(a[1..], b);
      assert (a + b)[1..] == a[1..] + b;
    }
  }

  /** The node count after visiting an arranged value, unless a limit is hit or something in it is refused. */
  function Walk(v: Value, depth: nat, nodes: nat): Option<nat>
    decreases v, 0
  {
    if nodes + 1 > MAX_NODES || depth > MAX_DEPTH then None
    else
      match v
      case List(items) =>
        // the array's own `length` is one of its keys
        if |items| + 1 > MAX_NODES - (nodes + 1) then None else WalkItems(items, depth + 1, nodes + 1)
      case Dict(fields) =>
        if |fields| > MAX_NODES - (nodes + 1) then None else WalkFields(fields, depth + 1, nodes + 1)
      case Undefined => None
      case Unreviewable => None
      case _ => Some(nodes + 1)
  }

  function WalkItems(items: seq<Value>, depth: nat, nodes: nat): Option<nat>
    decreases items
  {
    if items == [] then Some(nodes)
    else
      var first := Walk(items[0], depth, nodes);
      if first.None? then None else WalkItems(items[1..], depth, first.value)
  }

  function WalkFields(fields: seq<Field>, depth: nat, nodes: nat): Option<nat>
    decreases fields
  {
    if fields == [] then Some(nodes)
    else if |fields[0].key| > MAX_BYTES then None
    else
      var first := if !fields[0].value.Undefined? then Walk(fields[0].value, depth, nodes)
                   else if nodes + 1 > MAX_NODES then None else Some(nodes + 1);
      if first.None? then None else WalkFields(fields[1..], depth, first.value)
  }

  /** Canonicalization succeeds, starting from `nodes` visited and `written` printed. */
  predicate Fits(v: Value, depth: nat, nodes: nat, written: Text) {
    Walk(Arrange(v), depth, nodes).Some? && Utf8(written + Render(Arrange(v))) <= MAX_BYTES
  }

  lemma {:induction false} ArrangeInsert(f: Field, sorted: seq<Field>)
    ensures ArrangeFields(Insert(f, sorted)) == Insert(Field(f.key, Arrange(f.value)), ArrangeFields(sorted))
  {
    if sorted != [] && !Less(f.key, sorted[0].key) {
      ArrangeInsert(f, sorted[1..]);
      assert ArrangeFields(sorted)[1..] == ArrangeFields(sorted[1..]);
    }
  }

  lemma {:induction false} ArrangeSort(fields: seq<Field>)
    ensures ArrangeFields(Sort(fields)) == Sort(ArrangeFields(fields))
  {
    if fields != [] {
      ArrangeSort(fields[1..]);
      ArrangeInsert(fields[0], Sort(fields[1..]));
      assert ArrangeFields(fields)[1..] == ArrangeFields(fields[1..]);
    }
  }

  predicate LossAmong(fields: seq<Field>) {
    exists i :: 0 <= i < |fields| && (fields[i].value.Undefined? || Loss(fields[i].value))
  }

  predicate LossBefore(items: seq<Value>, n: nat)
    requires n <= |items|
  {
    exists i :: 0 <= i < n && Loss(items[i])
  }

  lemma LossBeforeGrows(items: seq<Value>, n: nat)
    requires n < |items|
    ensures LossBefore(items, n + 1) == (LossBefore(items, n) || Loss(items[n]))
    ensures !LossBefore(items, 0)
  {
  }

  predicate FieldLossBefore(fields: seq<Field>, n: nat)
    requires n <= |fields|
  {
    exists i :: 0 <= i < n && (fields[i].value.Undefined? || Loss(fields[i].value))
  }

  lemma FieldLossGrows(fields: seq<Field>, n: nat)
    requires n < |fields|
    ensures FieldLossBefore(fields, n + 1)
         == (FieldLossBefore(fields, n) || fields[n].value.Undefined? || Loss(fields[n].value))
  {
  }

  lemma LossAmongSame(a: seq<Field>, b: seq<Field>)
    requires forall f :: f in a <==> f in b
    ensures LossAmong(a) == LossAmong(b)
  {
    if LossAmong(a) {
      var i :| 0 <= i < |a| && (a[i].value.Undefined? || Loss(a[i].value));
      assert a[i] in b;
    }
    if LossAmong(b) {
      var i :| 0 <= i < |b| && (b[i].value.Undefined? || Loss(b[i].value));
      assert b[i] in a;
    }
  }

  class Printer {
    var written: Text
    var nodes: nat
    var bytes: nat
    var normalizationLoss: bool

    ghost predicate Valid()
      reads this
    {
      bytes == Utf8(written) <= MAX_BYTES
    }

    constructor ()
      ensures Valid() && written == [] && nodes == 0 && !normalizationLoss
    {
      written, nodes, bytes, normalizationLoss := [], 0, 0, false;
    }

    method Append(text: Text) returns (ok: bool)
      requires Valid()
      modifies this
      ensures nodes == old(nodes) && normalizationLoss == old(normalizationLoss)
      ensures ok <==> Utf8(old(written) + text) <= MAX_BYTES
      ensures ok ==> Valid() && written == old(written) + text
    {
      Utf8Joins(written, text);
      bytes := bytes + Utf8(text);
      if bytes > MAX_BYTES {
        return false;
      }
      written := written + text;
      return true;
    }

    method AppendQuoted(text: Text) returns (ok: bool)
      requires Valid()
      modifies this
      ensures nodes == old(nodes) && normalizationLoss == old(normalizationLoss)
      ensures ok <==> Utf8(old(written) + Quote(text)) <= MAX_BYTES
      ensures ok ==> Valid() && written == old(written) + Quote(text)
    {
      EscapedLength(text);
      Utf8Joins(written, Quote(text));
      if |text| > MAX_BYTES {
        return false;
      }
      ok := Append(Quote(text));
    }

    method Visit(value: Value, depth: nat) returns (ok: bool)
      requires Valid()
      modifies this
      ensures ok <==> Fits(value, depth, old(nodes), old(written))
      ensures ok ==> Valid() && written == old(written) + Render(Arrange(value))
      ensures ok ==> Some(nodes) == Walk(Arrange(value), depth, old(nodes))
      ensures ok ==> normalizationLoss == (old(normalizationLoss) || Loss(value))
      decreases value, 1
    {
      nodes := nodes + 1;
      if nodes > MAX_NODES || depth > MAX_DEPTH {
        return false;
      }
      match value
      case String(text) =>
        ok := AppendQuoted(text);
      case List(items) =>
        ok := VisitList(value, depth);
      case Dict(fields) =>
        ok := VisitDict(value, depth);
      case Undefined =>
        ok := false;
      case Unreviewable =>
        ok := false;
      case _ =>
        normalizationLoss := normalizationLoss || value.NegativeZero?;
        ok := Append(Render(value));
    }

    method VisitList(value: Value, depth: nat) returns (ok: bool)
      requires Valid() && value.List? && 0 < nodes <= MAX_NODES && depth <= MAX_DEPTH
      modifies this
      ensures ok <==> Fits(value, depth, old(nodes) - 1, old(written))
      ensures ok ==> Valid() && written == old(written) + Render(Arrange(value))
      ensures ok ==> Some(nodes) == Walk(Arrange(value), depth, old(nodes) - 1)
      ensures ok ==> normalizationLoss == (old(normalizationLoss) || Loss(value))
      decreases value, 0, 2
    {
      ghost var arranged := ArrangeItems(value.items);
      ghost var target := written + Render(Arrange(value));
      if |value.items| + 1 > MAX_NODES - nodes {
        return false;
      }
      ListTarget(written, arranged);
      Utf8Prefix(written + [OPEN_LIST], ListRest(arranged, []), target);
      ok := Append([OPEN_LIST]);
      if ok {
        ok := VisitItems(value, depth, arranged, target);
      }
    }

    method VisitItems(value: Value, depth: nat, ghost arranged: seq<Value>, ghost target: Text) returns (ok: bool)
      requires Valid() && value.List? && arranged == ArrangeItems(value.items)
      requires written + ListRest(arranged, []) == target
      modifies this
      ensures ok <==> WalkItems(arranged, depth + 1, old(nodes)).Some? && Utf8(target) <= MAX_BYTES
      ensures ok ==> Valid() && written == target && Some(nodes) == WalkItems(arranged, depth + 1, old(nodes))
      ensures ok ==> normalizationLoss == (old(normalizationLoss) || Loss(value))
      decreases value, 0, 1
    {
      var items := value.items;
      var separator: Text := [];
      var i := 0;
      ghost var rest := arranged;
      while i < |items|
        invariant 0 <= i <= |items| && Valid() && rest == arranged[i..]
        invariant i > 0 ==> separator == [COMMA]
        invariant written + ListRest(rest, separator) == target
        invariant WalkItems(rest, depth + 1, nodes) == WalkItems(arranged, depth + 1, old(nodes))
        invariant normalizationLoss == (old(normalizationLoss) || LossBefore(items, i))
      {
        LossBeforeGrows(items, i);
        assert rest[0] == arranged[i] == Arrange(items[i]);
        ItemStep(rest, separator, written);
        ok := VisitItem(value, items[i], separator, depth, rest[1..], target);
        if !ok {
          return;
        }
        separator := [COMMA];
        rest := rest[1..];
        i := i + 1;
      }
      assert rest == [];
      ok := Append([CLOSE_LIST]);
    }

    method VisitItem(owner: Value, item: Value, separator: Text, depth: nat, ghost rest: seq<Value>, ghost target: Text)
      returns (ok: bool)
      requires Valid() && owner.List? && item in owner.items
      requires written + separator + Render(Arrange(item)) + ListRest(rest, [COMMA]) == target
      modifies this
      ensures !ok ==> Walk(Arrange(item), depth + 1, old(nodes)).None? || Utf8(target) > MAX_BYTES
      ensures ok ==> Valid() && written + ListRest(rest, [COMMA]) == target
      ensures ok ==> Some(nodes) == Walk(Arrange(item), depth + 1, old(nodes))
      ensures ok ==> normalizationLoss == (old(normalizationLoss) || Loss(item))
      decreases owner, 0, 0
    {
      ghost var p0 := written + separator;
      ghost var p1 := p0 + Render(Arrange(item));
      Utf8Prefix(p1, ListRest(rest, [COMMA]), target);
      Utf8Prefix(p0, Render(Arrange(item)), p1);
      ok := Append(separator);
      if ok {
        ok := Visit(item, depth + 1);
      }
    }

    method VisitDict(value: Value, depth: nat) returns (ok: bool)
      requires Valid() && value.Dict? && 0 < nodes <= MAX_NODES && depth <= MAX_DEPTH
      modifies this
      ensures ok <==> Fits(value, depth, old(nodes) - 1, old(written))
      ensures ok ==> Valid() && written == old(written) + Render(Arrange(value))
      ensures ok ==> Some(nodes) == Walk(Arrange(value), depth, old(nodes) - 1)
      ensures ok ==> normalizationLoss == (old(normalizationLoss) || Loss(value))
      decreases value, 0, 3
    {
      var fields := Sort(value.fields);
      ghost var arranged := ArrangeFields(fields);
      ArrangeSort(value.fields);
      SortHas(value.fields);
      LossAmongSame(fields, value.fields);
      ghost var target := written + Render(Arrange(value));
      if |fields| > MAX_NODES - nodes {
        return false;
      }
      DictTarget(written, arranged);
      Utf8Prefix(written + [OPEN_DICT], RenderFields(arranged, []), target);
      ok := Append([OPEN_DICT]);
      if ok {
        ok := VisitFields(value, fields, depth, arranged, target);
      }
    }

    /** `fields` are the sorted fields of `value`. */
    method VisitFields(value: Value, fields: seq<Field>, depth: nat, ghost arranged: seq<Field>, ghost target: Text)
      returns (ok: bool)
      requires Valid() && value.Dict? && (forall f :: f in fields ==> f in value.fields)
      requires arranged == ArrangeFields(fields)
      requires written + RenderFields(arranged, []) == target
      modifies this
      ensures ok <==> WalkFields(arranged, depth + 1, old(nodes)).Some? && Utf8(target) <= MAX_BYTES
      ensures ok ==> Valid() && written == target && Some(nodes) == WalkFields(arranged, depth + 1, old(nodes))
      ensures ok ==> normalizationLoss == (old(normalizationLoss) || LossAmong(fields))
      decreases value, 0, 2
    {
      var separator: Text := [];
      var i := 0;
      ghost var rest := arranged;
      while i < |fields|
        invariant 0 <= i <= |fields| && Valid() && rest == arranged[i..]
        invariant written + RenderFields(rest, separator) == target
        invariant WalkFields(rest, depth + 1, nodes) == WalkFields(arranged, depth + 1, old(nodes))
        invariant normalizationLoss == (old(normalizationLoss) || FieldLossBefore(fields, i))
      {
        assert rest[0] == arranged[i];
        ok, separator := VisitEntry(value, fields[i], separator, depth, rest, target);
        if !ok {
          return;
        }
        FieldLossGrows(fields, i);
        rest := rest[1..];
        i := i + 1;
      }
      assert rest == [];
      ok := Append([CLOSE_DICT]);
    }

    /** One key: an absent value is counted and noted as a loss, any other is printed. */
    method VisitEntry(
      owner: Value, field: Field, separator: Text, depth: nat, ghost rest: seq<Field>, ghost target: Text)
      returns (ok: bool, next: Text)
      requires Valid() && owner.Dict? && field in owner.fields
      requires rest != [] && rest[0] == Field(field.key, Arrange(field.value))
      requires written + RenderFields(rest, separator) == target
      modifies this
      ensures !ok ==> WalkFields(rest, depth + 1, old(nodes)).None? || Utf8(target) > MAX_BYTES
      ensures ok ==> Valid() && written + RenderFields(rest[1..], next) == target
      ensures ok ==> WalkFields(rest[1..], depth + 1, nodes) == WalkFields(rest, depth + 1, old(nodes))
      ensures ok ==> normalizationLoss == (old(normalizationLoss) || field.value.Undefined? || Loss(field.value))
      decreases owner, 0, 1
    {
      next := separator;
      FieldStep(rest, separator, written);
      NeverUndefined(field.value);
      if |field.key| > MAX_BYTES {
        return false, next;
      }
      if field.value.Undefined? {
        normalizationLoss := true;
        nodes := nodes + 1;
        return nodes <= MAX_NODES, next;
      }
      ok := VisitField(owner, field, separator, depth, rest[1..], target);
      next := [COMMA];
    }

    method VisitField(
      owner: Value, field: Field, separator: Text, depth: nat, ghost rest: seq<Field>, ghost target: Text)
      returns (ok: bool)
      requires Valid() && owner.Dict? && field in owner.fields && !field.value.Undefined?
      requires written + separator + Quote(field.key) + [COLON] + Render(Arrange(field.value))
               + RenderFields(rest, [COMMA]) == target
      modifies this
      ensures !ok ==> Walk(Arrange(field.value), depth + 1, old(nodes)).None? || Utf8(target) > MAX_BYTES
      ensures ok ==> Valid() && written + RenderFields(rest, [COMMA]) == target
      ensures ok ==> Some(nodes) == Walk(Arrange(field.value), depth + 1, old(nodes))
      ensures ok ==> normalizationLoss == (old(normalizationLoss) || Loss(field.value))
      decreases owner, 0, 0
    {
      ghost var p0 := written + separator;
      ghost var p1 := p0 + Quote(field.key);
      ghost var p2 := p1 + [COLON];
      ghost var p3 := p2 + Render(Arrange(field.value));
      ghost var tail := RenderFields(rest, [COMMA]);
      Utf8Prefix(p3, tail, target);
      Utf8Prefix(p2, Render(Arrange(field.value)), p3);
      Utf8Prefix(p1, [COLON], p2);
      Utf8Prefix(p0, Quote(field.key), p1);
      ok := Append(separator);
      if !ok { return; }
      ok := AppendQuoted(field.key);
      if !ok { return; }
      ok := Append([COLON]);
      if !ok { return; }
      ok := Visit(field.value, depth + 1);
    }
  }

  lemma {:induction false} EscapedLength(text: Text)
    ensures |Escaped(text)| >= |text|
  {
    if text != [] {
      EscapeShape(text[0]);
      EscapedLength(text[1..]);
      if StartsPair(text) {
        EscapedLength(text[2..]);
      }
    }
  }

  lemma Utf8Prefix(prefix: Text, rest: Text, whole: Text)
    requires prefix + rest == whole
    ensures Utf8(prefix) <= Utf8(whole)
  {
    Utf8Joins(prefix, rest);
  }

  /** What is still to be printed of a list after its opening bracket. */
  function ListRest(items: seq<Value>, separator: Text): Text {
    if items == [] then [CLOSE_LIST] else separator + Render(items[0]) + RenderItems(items[1..])
  }

  lemma ListTarget(written: Text, items: seq<Value>)
    ensures written + Render(List(items)) == written + [OPEN_LIST] + ListRest(items, [])
  {
  }

  lemma DictTarget(written: Text, fields: seq<Field>)
    ensures written + Render(Dict(fields)) == written + [OPEN_DICT] + RenderFields(fields, [])
  {
  }

  lemma FieldStep(fields: seq<Field>, separator: Text, written: Text)
    requires fields != []
    ensures fields[0].value.Undefined? ==>
              written + RenderFields(fields, separator) == written + RenderFields(fields[1..], separator)
    ensures var f := fields[0];
            !f.value.Undefined? ==>
              written + RenderFields(fields, separator)
              == (written + separator + Quote(f.key) + [COLON] + Render(f.value) + RenderFields(fields[1..], [COMMA]))
  {
    if !fields[0].value.Undefined? {
      var q, r, rest := Quote(fields[0].key), Render(fields[0].value), RenderFields(fields[1..], [COMMA]);
      assert RenderFields(fields, separator) == separator + q + [COLON] + r + rest;
      assert written + (separator + q + [COLON] + r + rest) == written + separator + q + [COLON] + r + rest;
    }
  }

  lemma ItemStep(items: seq<Value>, separator: Text, written: Text)
    requires items != []
    ensures written + ListRest(items, separator)
         == written + separator + Render(items[0]) + ListRest(items[1..], [COMMA])
  {
    var r, rest := Render(items[0]), RenderItems(items[1..]);
    assert ListRest(items[1..], [COMMA]) == rest;
    assert written + (separator + r + rest) == written + separator + r + rest;
  }
}
