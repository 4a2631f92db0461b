/** Canonical JSON: normalising native values, printing with sorted keys, and reading the text back. */
module CanonicalJson {
  import opened Common
  import opened JsonText

  datatype Json =
    | Null
    | Bool(b: bool)
    | Num(n: int)
    | Text(s: string)
    | Arr(items: Items)
    | Obj(fields: Fields)

  datatype Items = Nil | Item(head: Json, tail: Items)

  /** An object's fields in insertion order. */
  datatype Fields = Empty | Field(key: string, value: Json, rest: Fields)

  // ---- the values given to the printer ----

  datatype Native =
    | Mapping(entries: Entries)
    | Sequence(elements: Elements)
    | Time(micros: int, aware: bool)
    | Uuid(text: string)
    | Enumerated(text: string)
    | Decimal
    | Float
    | Plain(json: Json)
    | Other

  datatype Elements = NoElement | Element(first: Native, others: Elements)

  datatype Entries = NoEntry | Entry(name: Option<string>, item: Native, more: Entries)

  datatype CanonicalError = KeyInvalid | TimezoneRequired | DecimalRequiresScale | FloatForbidden | TypeUnsupported

  /** A dictionary key that is not a string is `None`. */
  predicate AllNamed(e: Entries) {
    e.Entry? ==> e.name.Some? && AllNamed(e.more)
  }

  /** Plain values reach the printer as they are. */
  predicate IsScalar(j: Json) {
    !j.Arr? && !j.Obj?
  }

  /** `utc_z`: whole seconds, the fraction dropped; the calendar text is abstracted to the second count. */
  function WholeSecond(micros: int): int {
    micros / 1000000
  }

  function UtcZ(micros: int): string {
    IntText(WholeSecond(micros)) + "Z"
  }

  /** `_canonical_value`. */
  function Canonical(v: Native): Result<Json, CanonicalError> {
    match v
    case Mapping(entries) =>
      if !AllNamed(entries) then Err(KeyInvalid)
      else
        var fields := CanonicalEntries(entries);
        if fields.Err? then Err(fields.error) else Ok(Obj(fields.value))
    case Sequence(elements) =>
      var items := CanonicalElements(elements);
      if items.Err? then Err(items.error) else Ok(Arr(items.value))
    case Time(micros, aware) => if aware then Ok(Text(UtcZ(micros))) else Err(TimezoneRequired)
    case Uuid(text) => Ok(Text(text))
    case Enumerated(text) => Ok(Text(text))
    case Decimal => Err(DecimalRequiresScale)
    case Float => Err(FloatForbidden)
    case Plain(json) => if IsScalar(json) then Ok(json) else Err(TypeUnsupported)
    case Other => Err(TypeUnsupported)
  }

  function CanonicalElements(e: Elements): Result<Items, CanonicalError> {
    match e
    case NoElement => Ok(Nil)
    case Element(first, others) =>
      var head := Canonical(first);
      if head.Err? then Err(head.error)
      else
        var tail := CanonicalElements(others);
        if tail.Err? then Err(tail.error) else Ok(Item(head.value, tail.value))
  }

  function CanonicalEntries(e: Entries): Result<Fields, CanonicalError>
    requires AllNamed(e)
  {
    match e
    case NoEntry => Ok(Empty)
    case Entry(name, item, more) =>
      var value := Canonical(item);
      if value.Err? then Err(value.error)
      else
        var rest := CanonicalEntries(more);
        if rest.Err? then Err(rest.error) else Ok(Field(name.value, value.value, rest.value))
  }

  // ---- sorting keys ----

  /** Strings are ordered by code point, a prefix first. */
  predicate Less(a: string, b: string) {
    b != "" && (a == "" || a[0] < b[0] || (a[0] == b[0] && Less(a[1..], b[1..])))
  }

  lemma {:induction false} LessTotal(a: string, b: string)
    ensures a == b || Less(a, b) || Less(b, a)
  {
    if a != "" && b != "" && a[0] == b[0] {
      LessTotal(a[1..], b[1..]);
      assert [a[0]] + a[1..] == a && [b[0]] + b[1..] == b;
    }
  }

  lemma {:induction false} LessIrreflexive(a: string)
    ensures !Less(a, a)
  {
    if a != "" {
      LessIrreflexive(a[1..]);
    }
  }

  lemma {:induction false} LessTransitive(a: string, b: string, c: string)
    requires Less(a, b) && Less(b, c)
    ensures Less(a, c)
  {
    if a != "" && a[0] == b[0] && b[0] == c[0] {
      LessTransitive(a[1..], b[1..], c[1..]);
    }
  }

  function Insert(key: string, value: Json, f: Fields): Fields {
    if f.Field? && Less(f.key, key) then Field(f.key, f.value, Insert(key, value, f.rest)) else Field(key, value, f)
  }

  function Sort(f: Fields): Fields {
    if f.Empty? then Empty else Insert(f.key, f.value, Sort(f.rest))
  }

  /** Every object of the value with its keys in order. */
  function Normal(j: Json): Json {
    match j
    case Null => j
    case Bool(_) => j
    case Num(_) => j
    case Text(_) => j
    case Arr(items) => Arr(NormalItems(items))
    case Obj(fields) => Obj(Sort(NormalFields(fields)))
  }

  function NormalItems(i: Items): Items {
    if i.Nil? then Nil else Item(Normal(i.head), NormalItems(i.tail))
  }

  function NormalFields(f: Fields): Fields {
    if f.Empty? then Empty else Field(f.key, Normal(f.value), NormalFields(f.rest))
  }

  // ---- printing ----

  /** Compact JSON text in the order the fields stand. */
  function Write(j: Json): string {
    match j
    case Null => "null"
    case Bool(b) => if b then "true" else "false"
    case Num(n) => IntText(n)
    case Text(s) => Quoted(s)
    case Arr(items) => if items.Nil? then "[]" else "[" + WriteItems(items)
    case Obj(fields) => if fields.Empty? then "{}" else "{" + WriteFields(fields)
  }

  /** The items and the closing bracket. */
  function WriteItems(i: Items): string
    requires i.Item?
  {
    Write(i.head) + if i.tail.Nil? then "]" else "," + WriteItems(i.tail)
  }

  function WriteFields(f: Fields): string
    requires f.Field?
  {
    Quoted(f.key) + ":" + Write(f.value) + if f.rest.Empty? then "}" else "," + WriteFields(f.rest)
  }

  /** json.dumps with sort_keys and compact separators. */
  function Print(j: Json): string {
    Write(Normal(j))
  }

  // ---- reading ----

  predicate StartsWith(s: string, prefix: string) {
    |prefix| <= |s| && s[..|prefix|] == prefix
  }

  function Read(s: string): (r: Option<(Json, string)>)
    ensures r.Some? ==> |r.value.1| < |s|
    decreases |s|, 0
  {
    if s == "" then None
    else if s[0] == 'n' then if StartsWith(s, "null") then Some((Null, s[4..])) else None
    else if s[0] == 't' then if StartsWith(s, "true") then Some((Bool(true), s[4..])) else None
    else if s[0] == 'f' then if StartsWith(s, "false") then Some((Bool(false), s[5..])) else None
    else if s[0] == '\"' then
      var body := ReadBody(s[1..]);
      if body.None? then None else Some((Text(body.value.0), body.value.1))
    else if s[0] == '[' then
      if StartsWith(s, "[]") then Some((Arr(Nil), s[2..]))
      else
        var items := ReadItems(s[1..]);
        if items.None? then None else Some((Arr(items.value.0), items.value.1))
    else if s[0] == '{' then
      if StartsWith(s, "{}") then Some((Obj(Empty), s[2..]))
      else
        var fields := ReadFields(s[1..]);
        if fields.None? then None else Some((Obj(fields.value.0), fields.value.1))
    else
      var number := ReadInt(s);
      if number.None? then None else Some((Num(number.value.0), number.value.1))
  }

  function ReadItems(s: string): (r: Option<(Items, string)>)
    ensures r.Some? ==> |r.value.1| < |s|
    decreases |s|, 1
  {
    var head := Read(s);
    if head.None? || head.value.1 == "" then None
    else if head.value.1[0] == ']' then Some((Item(head.value.0, Nil), head.value.1[1..]))
    else if head.value.1[0] != ',' then None
    else
      var tail := ReadItems(head.value.1[1..]);
      if tail.None? then None else Some((Item(head.value.0, tail.value.0), tail.value.1))
  }

  function ReadFields(s: string): (r: Option<(Fields, string)>)
    ensures r.Some? ==> |r.value.1| < |s|
    decreases |s|, 1
  {
    if s == "" || s[0] != '\"' then None
    else
      var key := ReadBody(s[1..]);
      if key.None? || key.value.1 == "" || key.value.1[0] != ':' then None
      else
        var value := Read(key.value.1[1..]);
        if value.None? || value.value.1 == "" then None
        else if value.value.1[0] == '}' then Some((Field(key.value.0, value.value.0, Empty), value.value.1[1..]))
        else if value.value.1[0] != ',' then None
        else
          var rest := ReadFields(value.value.1[1..]);
          if rest.None? then None else Some((Field(key.value.0, value.value.0, rest.value.0), rest.value.1))
  }

  // ---- what a value means ----

  /** The JSON value: objects are maps, so the order of fields is gone. */
  datatype Value =
    | VNull
    | VBool(b: bool)
    | VNum(n: int)
    | VText(s: string)
    | VArr(items: seq<Value>)
    | VObj(fields: map<string, Value>)

  function Meaning(j: Json): Value {
    match j
    case Null => VNull
    case Bool(b) => VBool(b)
    case Num(n) => VNum(n)
    case Text(s) => VText(s)
    case Arr(items) => VArr(ItemMeanings(items))
    case Obj(fields) => VObj(FieldMeanings(fields))
  }

  function ItemMeanings(i: Items): seq<Value> {
    if i.Nil? then [] else [Meaning(i.head)] + ItemMeanings(i.tail)
  }

  function FieldMeanings(f: Fields): map<string, Value> {
    if f.Empty? then map[] else FieldMeanings(f.rest)[f.key := Meaning(f.value)]
  }

  function Keys(f: Fields): set<string> {
    if f.Empty? then {} else {f.key} + Keys(f.rest)
  }

  /** A dictionary holds each key once, at every depth. */
  predicate Proper(j: Json) {
    match j
    case Null => true
    case Bool(_) => true
    case Num(_) => true
    case Text(_) => true
    case Arr(items) => ProperItems(items)
    case Obj(fields) => ProperFields(fields)
  }

  predicate ProperItems(i: Items) {
    i.Item? ==> Proper(i.head) && ProperItems(i.tail)
  }

  predicate ProperFields(f: Fields) {
    f.Field? ==> f.key !in Keys(f.rest) && Proper(f.value) && ProperFields(f.rest)
  }
}
