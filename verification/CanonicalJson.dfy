/** Canonical JSON for permission identities: sorted keys, one rendering per JSON value. */
module CanonicalJson {
  import opened CodeUnits

  /**
   * An input as reflection shows it. `Number` carries the text of a finite number other than negative zero;
   * `Unreviewable` stands for anything refused on sight: functions, proxies, accessors, hidden fields, symbol keys,
   * custom prototypes, sparse arrays, non-finite numbers and references to an enclosing object.
   */
  datatype Value =
    | Null
    | Bool(truth: bool)
    | Number(token: Text)
    | NegativeZero
    | String(text: Text)
    | List(items: seq<Value>)
    | Dict(fields: seq<Field>)
    | Undefined
    | Unreviewable

  datatype Field = Field(key: Text, value: Value)

  const QUOTE: Unit := 34
  const BACKSLASH: Unit := 92
  const COMMA: Unit := 44
  const COLON: Unit := 58
  const OPEN_LIST: Unit := 91
  const CLOSE_LIST: Unit := 93
  const OPEN_DICT: Unit := 123
  const CLOSE_DICT: Unit := 125
  const ZERO: Unit := 48

  // ---- Order of keys ----

  /** Code unit order, as section 3.2.3 of RFC 8785 asks. */
  predicate Less(a: Text, b: Text) {
    if b == [] then false
    else if a == [] then true
    else a[0] < b[0] || (a[0] == b[0] && Less(a[1..], b[1..]))
  }

  function Insert(f: Field, sorted: seq<Field>): seq<Field> {
    if sorted == [] || Less(f.key, sorted[0].key) then [f] + sorted
    else [sorted[0]] + Insert(f, sorted[1..])
  }

  function Sort(fields: seq<Field>): seq<Field> {
    if fields == [] then [] else Insert(fields[0], Sort(fields[1..]))
  }

  /** The same value with the fields of every object in key order. */
  function Arrange(v: Value): Value {
    match v
    case List(items) => List(ArrangeItems(items))
    case Dict(fields) => Dict(Sort(ArrangeFields(fields)))
    case _ => v
  }

  function ArrangeItems(items: seq<Value>): (r: seq<Value>)
    ensures |r| == |items| && forall i :: 0 <= i < |items| ==> r[i] == Arrange(items[i])
  {
    if items == [] then [] else [Arrange(items[0])] + ArrangeItems(items[1..])
  }

  function ArrangeFields(fields: seq<Field>): (r: seq<Field>)
    ensures |r| == |fields|
    ensures forall i :: 0 <= i < |fields| ==> r[i] == Field(fields[i].key, Arrange(fields[i].value))
  {
    if fields == [] then []
    else [Field(fields[0].key, Arrange(fields[0].value))] + ArrangeFields(fields[1..])
  }

  // ---- Text ----

  predicate High(u: Unit) {
    0xD800 <= u < 0xDC00
  }

  predicate Low(u: Unit) {
    0xDC00 <= u < 0xE000
  }

  function HexDigit(n: int): Unit
    requires 0 <= n < 16
  {
    if n < 10 then (48 + n) as Unit else (87 + n) as Unit
  }

  function UnicodeEscape(u: Unit): Text {
    var n := u as int;
    [BACKSLASH, 117, HexDigit(n / 4096), HexDigit(n / 256 % 16), HexDigit(n / 16 % 16), HexDigit(n % 16)]
  }

  /** One code unit that is not half of a surrogate pair; section 7 of RFC 8259. */
  function Escape(u: Unit): Text {
    if u == QUOTE || u == BACKSLASH then [BACKSLASH, u]
    else if u == 8 then [BACKSLASH, 98]
    else if u == 9 then [BACKSLASH, 116]
    else if u == 10 then [BACKSLASH, 110]
    else if u == 12 then [BACKSLASH, 102]
    else if u == 13 then [BACKSLASH, 114]
    else if u < 32 || High(u) || Low(u) then UnicodeEscape(u)
    else [u]
  }

  predicate StartsPair(text: Text) {
    |text| > 1 && High(text[0]) && Low(text[1])
  }

  function Escaped(text: Text): Text {
    if text == [] then []
    else if StartsPair(text) then [text[0], text[1]] + Escaped(text[2..])
    else Escape(text[0]) + Escaped(text[1..])
  }

  function Quote(text: Text): Text {
    [QUOTE] + Escaped(text) + [QUOTE]
  }

  /** Rendering keeps the order of fields it is given and leaves out fields without a value. */
  function Render(v: Value): Text {
    match v
    case Null => [110, 117, 108, 108]
    case Bool(b) => if b then [116, 114, 117, 101] else [102, 97, 108, 115, 101]
    case Number(token) => token
    case NegativeZero => [ZERO]
    case String(text) => Quote(text)
    case List(items) =>
      [OPEN_LIST] + (if items == [] then [CLOSE_LIST] else Render(items[0]) + RenderItems(items[1..]))
    case Dict(fields) => [OPEN_DICT] + RenderFields(fields, [])
    case Undefined => []
    case Unreviewable => []
  }

  function RenderItems(items: seq<Value>): Text {
    if items == [] then [CLOSE_LIST] else [COMMA] + Render(items[0]) + RenderItems(items[1..])
  }

  function RenderFields(fields: seq<Field>, separator: Text): Text {
    if fields == [] then [CLOSE_DICT]
    else if fields[0].value.Undefined? then RenderFields(fields[1..], separator)
    else separator + Quote(fields[0].key) + [COLON] + Render(fields[0].value) + RenderFields(fields[1..], [COMMA])
  }

  function Print(v: Value): Text {
    Render(Arrange(v))
  }

  // ---- Meaning ----

  /** JSON values proper: objects are unordered. */
  datatype Json =
    | JNull
    | JBool(truth: bool)
    | JNumber(token: Text)
    | JString(text: Text)
    | JArray(items: seq<Json>)
    | JObject(fields: map<Text, Json>)

  predicate NumberUnit(u: Unit) {
    48 <= u < 58 || u == 45 || u == 43 || u == 46 || u == 101
  }

  /** The text of a number starts with a digit or a minus sign. */
  predicate NumberToken(token: Text) {
    && token != [] && (48 <= token[0] < 58 || token[0] == 45)
    && forall i :: 0 <= i < |token| ==> NumberUnit(token[i])
  }

  /** A JSON value: nothing undefined or unreviewable in it, and every object has distinct keys. */
  predicate Plain(v: Value) {
    match v
    case Number(token) => NumberToken(token)
    case List(items) => forall i :: 0 <= i < |items| ==> Plain(items[i])
    case Dict(fields) => Distinct(fields) && forall i :: 0 <= i < |fields| ==> Plain(fields[i].value)
    case NegativeZero => false
    case Undefined => false
    case Unreviewable => false
    case _ => true
  }

  predicate Distinct(fields: seq<Field>) {
    forall i, j :: 0 <= i < j < |fields| ==> fields[i].key != fields[j].key
  }

  function Meaning(v: Value): Json {
    match v
    case Null => JNull
    case Bool(b) => JBool(b)
    case Number(token) => JNumber(token)
    case String(text) => JString(text)
    case List(items) => JArray(seq(|items|, i requires 0 <= i < |items| => Meaning(items[i])))
    case Dict(fields) => JObject(MeaningOf(fields))
    case NegativeZero => JNumber([ZERO])
    case _ => JNull
  }

  function MeaningOf(fields: seq<Field>): map<Text, Json> {
    if fields == [] then map[] else MeaningOf(fields[1..])[fields[0].key := Meaning(fields[0].value)]
  }
}
