/** Printing is injective on JSON values, independent of key order, and reproduced by re-printing. */
module CanonicalTheorems {
  import opened Common
  import opened JsonText
  import opened CanonicalJson

  // ---- reading what was written ----

  lemma {:induction false} WriteReads(j: Json, rest: string)
    requires !StartsWithDigit(rest)
    ensures Write(j) != "" && Read(Write(j) + rest) == Some((j, rest))
    ensures !(Write(j)[0] == ']' || Write(j)[0] == '}')
    decreases j, 0
  {
    if j.Null? || j.Bool? {
      LiteralReads(j, rest);
    } else if j.Num? {
      NumberReads(j.n, rest);
    } else if j.Text? {
      TextReads(j.s, rest);
    } else if j.Arr? {
      ArrayReads(j.items, rest);
    } else {
      ObjectReads(j.fields, rest);
    }
  }

  lemma LiteralReads(j: Json, rest: string)
    requires j.Null? || j.Bool?
    ensures Read(Write(j) + rest) == Some((j, rest))
  {
    var text := Write(j);
    assert (text + rest)[..|text|] == text && (text + rest)[|text|..] == rest;
  }

  lemma NumberReads(n: int, rest: string)
    requires !StartsWithDigit(rest)
    ensures IntText(n) != "" && Read(IntText(n) + rest) == Some((Num(n), rest))
    ensures IntText(n)[0] != ']' && IntText(n)[0] != '}'
  {
    IntReads(n, rest);
    hide IntText, ReadInt;
    assert (IntText(n) + rest)[0] == IntText(n)[0];
  }

  lemma TextReads(s: string, rest: string)
    ensures Read(Quoted(s) + rest) == Some((Text(s), rest))
    ensures Quoted(s) != "" && Quoted(s)[0] == '\"'
  {
    QuotedReads(s, rest);
    hide ReadBody, Body;
  }

  lemma {:induction false} ArrayReads(items: Items, rest: string)
    ensures Read(Write(Arr(items)) + rest) == Some((Arr(items), rest))
    decreases items, 2
  {
    if items.Nil? {
      assert ("[]" + rest)[..2] == "[]" && ("[]" + rest)[2..] == rest;
    } else {
      ItemsRead(items, rest);
      var text := WriteItems(items);
      var whole := "[" + text + rest;
      assert whole[1..] == text + rest;
      WriteStarts(items.head);
      assert text[0] == Write(items.head)[0];
      assert whole[1] != ']';
      hide Write, WriteItems, ReadItems;
      NotPrefix(whole, "[]", 1);
    }
  }

  lemma NotPrefix(s: string, prefix: string, i: nat)
    requires i < |prefix| && i < |s| && s[i] != prefix[i]
    ensures !StartsWith(s, prefix)
  {
    if |prefix| <= |s| {
      assert s[..|prefix|][i] == s[i];
    }
  }

  /** A value never begins with a closing bracket. */
  lemma WriteStarts(j: Json)
    ensures Write(j) != "" && Write(j)[0] != ']' && Write(j)[0] != '}'
  {
    if j.Num? {
      NumberReads(j.n, "");
    }
  }

  /** What follows an item. */
  function ItemTail(i: Items): string
    requires i.Item?
  {
    if i.tail.Nil? then "]" else "," + WriteItems(i.tail)
  }

  lemma {:induction false} ItemsRead(i: Items, rest: string)
    requires i.Item?
    ensures ReadItems(WriteItems(i) + rest) == Some((i, rest))
    decreases i, 1
  {
    hide Write, Read, ReadItems;
    var after := ItemTail(i) + rest;
    ItemSplits(i, rest);
    hide ItemTail, WriteItems;
    WriteReads(i.head, after);
    ItemStep(WriteItems(i) + rest, i.head, after);
    if i.tail.Item? {
      ItemsRead(i.tail, rest);
      assert after[1..] == WriteItems(i.tail) + rest;
    }
  }

  /** A text that goes on after its first character. */
  lemma AfterFirst(c: char, text: string, rest: string)
    ensures var after := ([c] + text) + rest; after != "" && after[0] == c && after[1..] == text + rest
  {
  }

  lemma Regroup(a: string, b: string, c: string)
    ensures (a + b) + c == a + (b + c)
  {
  }

  lemma ItemSplits(i: Items, rest: string)
    requires i.Item?
    ensures var after := ItemTail(i) + rest;
      && WriteItems(i) + rest == Write(i.head) + after && after != "" && !StartsWithDigit(after)
      && after[0] == (if i.tail.Nil? then ']' else ',')
      && after[1..] == (if i.tail.Item? then WriteItems(i.tail) + rest else rest)
  {
    hide Write;
    assert WriteItems(i) == Write(i.head) + ItemTail(i);
    assert ItemTail(i) == if i.tail.Nil? then "]" else "," + WriteItems(i.tail);
    hide ItemTail, WriteItems;
    Regroup(Write(i.head), ItemTail(i), rest);
    if i.tail.Item? {
      AfterFirst(',', WriteItems(i.tail), rest);
    } else {
      AfterFirst(']', "", rest);
      assert [']'] + "" == "]" && "" + rest == rest;
    }
  }

  /** One item read, and the separator after it. */
  lemma ItemStep(s: string, head: Json, after: string)
    requires Read(s) == Some((head, after)) && after != ""
    ensures after[0] == ']' ==> ReadItems(s) == Some((Item(head, Nil), after[1..]))
    ensures after[0] == ',' ==>
      ReadItems(s) == var tail := ReadItems(after[1..]);
        if tail.None? then None else Some((Item(head, tail.value.0), tail.value.1))
  {
    hide Read;
  }

  lemma {:induction false} ObjectReads(fields: Fields, rest: string)
    ensures Read(Write(Obj(fields)) + rest) == Some((Obj(fields), rest))
    decreases fields, 2
  {
    if fields.Empty? {
      assert ("{}" + rest)[..2] == "{}" && ("{}" + rest)[2..] == rest;
    } else {
      var text := WriteFields(fields);
      assert Write(Obj(fields)) == "{" + text;
      FieldsStart(fields);
      hide Write, WriteFields, ReadFields, Read;
      FieldsRead(fields, rest);
      OpenedObject(text, rest, fields);
    }
  }

  lemma FieldsStart(f: Fields)
    requires f.Field?
    ensures WriteFields(f) != "" && WriteFields(f)[0] == '\"'
  {
    hide Body, Write;
  }

  lemma OpenedObject(text: string, rest: string, fields: Fields)
    requires text != "" && text[0] == '\"' && ReadFields(text + rest) == Some((fields, rest))
    ensures Read("{" + text + rest) == Some((Obj(fields), rest))
  {
    hide ReadFields, ReadItems, ReadBody, ReadInt;
    var whole := "{" + text + rest;
    assert whole[1..] == text + rest && whole[0] == '{' && whole[1] == '\"';
    NotPrefix(whole, "{}", 1);
    hide StartsWith;
  }

  /** What follows a field's value. */
  function FieldTail(f: Fields): string
    requires f.Field?
  {
    if f.rest.Empty? then "}" else "," + WriteFields(f.rest)
  }

  lemma FieldText(f: Fields)
    requires f.Field?
    ensures WriteFields(f) == Quoted(f.key) + ":" + Write(f.value) + FieldTail(f)
  {
    hide Quoted, Write;
  }

  lemma {:induction false} FieldsRead(f: Fields, rest: string)
    requires f.Field?
    ensures ReadFields(WriteFields(f) + rest) == Some((f, rest))
    decreases f, 1
  {
    hide Write, Read, Quoted, ReadBody, ReadFields, WriteFields;
    FieldText(f);
    var after := FieldTail(f) + rest;
    assert !StartsWithDigit(after) && after[0] == if f.rest.Empty? then '}' else ',';
    if f.rest.Field? {
      FieldsRead(f.rest, rest);
      assert after[1..] == WriteFields(f.rest) + rest;
    } else {
      assert after[1..] == rest;
    }
    hide FieldTail;
    WriteReads(f.value, after);
    Joined(Quoted(f.key), Write(f.value), FieldTail(f), rest);
    QuotedReads(f.key, ":" + Write(f.value) + after);
    FieldStep(WriteFields(f) + rest, f.key, ":" + Write(f.value) + after, f.value, after);
  }

  lemma Joined(quoted: string, value: string, tail: string, rest: string)
    ensures quoted + ":" + value + tail + rest == quoted + (":" + value + (tail + rest))
    ensures (":" + value + (tail + rest))[1..] == value + (tail + rest)
  {
  }

  /** One field read, and the separator after it. */
  lemma FieldStep(s: string, key: string, middle: string, value: Json, after: string)
    requires s != "" && s[0] == '\"' && ReadBody(s[1..]) == Some((key, middle))
    requires middle != "" && middle[0] == ':' && Read(middle[1..]) == Some((value, after)) && after != ""
    ensures after[0] == '}' ==> ReadFields(s) == Some((Field(key, value, Empty), after[1..]))
    ensures after[0] == ',' ==>
      ReadFields(s) == var rest := ReadFields(after[1..]);
        if rest.None? then None else Some((Field(key, value, rest.value.0), rest.value.1))
  {
    hide Read, ReadBody;
  }

  /** Equal texts come from equal trees. */
  lemma WriteInjective(a: Json, b: Json)
    requires Write(a) == Write(b)
    ensures a == b
  {
    WriteReads(a, "");
    WriteReads(b, "");
    assert Write(a) + "" == Write(a) && Write(b) + "" == Write(b);
  }

  // ---- normal forms ----

  predicate Sorted(f: Fields) {
    f.Field? ==> (f.rest.Field? ==> Less(f.key, f.rest.key)) && Sorted(f.rest)
  }

  /** Every object of the value has strictly increasing keys. */
  predicate InNormal(j: Json) {
    match j
    case Null => true
    case Bool(_) => true
    case Num(_) => true
    case Text(_) => true
    case Arr(items) => ItemsInNormal(items)
    case Obj(fields) => Sorted(fields) && FieldsInNormal(fields)
  }

  predicate ItemsInNormal(i: Items) {
    i.Item? ==> InNormal(i.head) && ItemsInNormal(i.tail)
  }

  predicate FieldsInNormal(f: Fields) {
    f.Field? ==> InNormal(f.value) && FieldsInNormal(f.rest)
  }

  predicate UniqueKeys(f: Fields) {
    f.Field? ==> f.key !in Keys(f.rest) && UniqueKeys(f.rest)
  }

  lemma {:induction false} SortedBelow(f: Fields, k: string)
    requires Sorted(f) && f.Field? && k in Keys(f.rest)
    ensures Less(f.key, k)
  {
    if k != f.rest.key {
      SortedBelow(f.rest, k);
      LessTransitive(f.key, f.rest.key, k);
    }
  }

  lemma {:induction false} SortedUnique(f: Fields)
    requires Sorted(f)
    ensures UniqueKeys(f)
  {
    if f.Field? {
      SortedUnique(f.rest);
      LessIrreflexive(f.key);
      if f.key in Keys(f.rest) {
        SortedBelow(f, f.key);
      }
    }
  }

  lemma {:induction false} InsertSorts(key: string, value: Json, f: Fields)
    requires Sorted(f) && key !in Keys(f)
    ensures Sorted(Insert(key, value, f)) && Keys(Insert(key, value, f)) == Keys(f) + {key}
    ensures FieldMeanings(Insert(key, value, f)) == FieldMeanings(f)[key := Meaning(value)]
    ensures InNormal(value) && FieldsInNormal(f) ==> FieldsInNormal(Insert(key, value, f))
  {
    hide Less, Meaning, InNormal;
    if f.Field? {
      LessTotal(f.key, key);
      if Less(f.key, key) {
        InsertSorts(key, value, f.rest);
        var rest := Insert(key, value, f.rest);
        assert rest.key == key || rest.key == f.rest.key;
        assert FieldMeanings(f.rest)[key := Meaning(value)][f.key := Meaning(f.value)]
            == FieldMeanings(f.rest)[f.key := Meaning(f.value)][key := Meaning(value)];
      }
    }
  }

  lemma {:induction false} SortSorts(f: Fields)
    requires UniqueKeys(f)
    ensures Sorted(Sort(f)) && Keys(Sort(f)) == Keys(f) && FieldMeanings(Sort(f)) == FieldMeanings(f)
    ensures FieldsInNormal(f) ==> FieldsInNormal(Sort(f))
  {
    hide Insert, Meaning, InNormal;
    if f.Field? {
      SortSorts(f.rest);
      InsertSorts(f.key, f.value, Sort(f.rest));
    }
  }

  lemma {:induction false} SortOfSorted(f: Fields)
    requires Sorted(f)
    ensures Sort(f) == f
  {
    if f.Field? {
      SortOfSorted(f.rest);
      if f.rest.Field? {
        LessAsymmetric(f.key, f.rest.key);
      }
    }
  }

  lemma LessAsymmetric(a: string, b: string)
    requires Less(a, b)
    ensures !Less(b, a)
  {
    LessIrreflexive(a);
    if Less(b, a) {
      LessTransitive(a, b, a);
    }
  }

  /** Normalising sorts every object and keeps the meaning. */
  lemma {:induction false} NormalMeans(j: Json)
    requires Proper(j)
    ensures InNormal(Normal(j)) && Meaning(Normal(j)) == Meaning(j)
    decreases j, 0
  {
    if j.Arr? {
      NormalItemsMean(j.items);
    } else if j.Obj? {
      NormalFieldsMean(j.fields);
      SortSorts(NormalFields(j.fields));
    }
  }

  lemma {:induction false} NormalItemsMean(i: Items)
    requires ProperItems(i)
    ensures ItemsInNormal(NormalItems(i)) && ItemMeanings(NormalItems(i)) == ItemMeanings(i)
    decreases i, 1
  {
    if i.Item? {
      NormalMeans(i.head);
      NormalItemsMean(i.tail);
    }
  }

  lemma {:induction false} NormalFieldsMean(f: Fields)
    requires ProperFields(f)
    ensures UniqueKeys(NormalFields(f)) && Keys(NormalFields(f)) == Keys(f)
    ensures FieldsInNormal(NormalFields(f)) && FieldMeanings(NormalFields(f)) == FieldMeanings(f)
    decreases f, 1
  {
    if f.Field? {
      NormalMeans(f.value);
      NormalFieldsMean(f.rest);
    }
  }

  /** A value already in order is left alone. */
  lemma {:induction false} NormalOfNormal(j: Json)
    requires InNormal(j)
    ensures Normal(j) == j
    decreases j, 0
  {
    if j.Arr? {
      NormalItemsSame(j.items);
    } else if j.Obj? {
      NormalFieldsSame(j.fields);
      SortOfSorted(j.fields);
    }
  }

  lemma {:induction false} NormalItemsSame(i: Items)
    requires ItemsInNormal(i)
    ensures NormalItems(i) == i
    decreases i, 1
  {
    if i.Item? {
      NormalOfNormal(i.head);
      NormalItemsSame(i.tail);
    }
  }

  lemma {:induction false} NormalFieldsSame(f: Fields)
    requires FieldsInNormal(f)
    ensures NormalFields(f) == f
    decreases f, 1
  {
    if f.Field? {
      NormalOfNormal(f.value);
      NormalFieldsSame(f.rest);
    }
  }

  lemma {:induction false} MeaningKeys(f: Fields)
    ensures FieldMeanings(f).Keys == Keys(f)
  {
    if f.Field? {
      MeaningKeys(f.rest);
    }
  }

  /** Two values in order with one meaning are one value. */
  lemma {:induction false} NormalUnique(a: Json, b: Json)
    requires InNormal(a) && InNormal(b) && Meaning(a) == Meaning(b)
    ensures a == b
    decreases a, 0
  {
    if a.Arr? {
      ItemsUnique(a.items, b.items);
    } else if a.Obj? {
      FieldsUnique(a.fields, b.fields);
    }
  }

  lemma {:induction false} ItemsUnique(a: Items, b: Items)
    requires ItemsInNormal(a) && ItemsInNormal(b) && ItemMeanings(a) == ItemMeanings(b)
    ensures a == b
    decreases a, 1
  {
    if a.Item? {
      assert ItemMeanings(a)[0] == Meaning(a.head) && ItemMeanings(a)[1..] == ItemMeanings(a.tail);
      assert ItemMeanings(b)[0] == Meaning(b.head) && ItemMeanings(b)[1..] == ItemMeanings(b.tail);
      NormalUnique(a.head, b.head);
      ItemsUnique(a.tail, b.tail);
    }
  }

  lemma {:induction false} FieldsUnique(a: Fields, b: Fields)
    requires Sorted(a) && Sorted(b) && FieldsInNormal(a) && FieldsInNormal(b) && FieldMeanings(a) == FieldMeanings(b)
    ensures a == b
    decreases a, 1
  {
    MeaningKeys(a);
    MeaningKeys(b);
    if a.Field? {
      assert a.key in Keys(b);
      SameFirstKey(a, b);
      NormalUnique(a.value, b.value);
      RestMeanings(a);
      RestMeanings(b);
      FieldsUnique(a.rest, b.rest);
    } else {
      assert Keys(b) == {};
    }
  }

  lemma SameFirstKey(a: Fields, b: Fields)
    requires Sorted(a) && Sorted(b) && a.Field? && b.Field? && Keys(a) == Keys(b)
    ensures a.key == b.key
  {
    if a.key != b.key {
      assert a.key in Keys(b) && b.key in Keys(a);
      SortedBelow(a, b.key);
      SortedBelow(b, a.key);
      LessAsymmetric(a.key, b.key);
    }
  }

  lemma RestMeanings(f: Fields)
    requires Sorted(f) && f.Field?
    ensures FieldMeanings(f.rest) == FieldMeanings(f) - {f.key}
  {
    SortedUnique(f);
    MeaningKeys(f.rest);
  }

  // ---- the main results ----

  /** Two values print to the same text exactly when they are the same JSON value, keys in any order. */
  lemma PrintDecidesMeaning(v: Json, w: Json)
    requires Proper(v) && Proper(w)
    ensures Print(v) == Print(w) <==> Meaning(v) == Meaning(w)
  {
    NormalMeans(v);
    NormalMeans(w);
    hide Normal, Meaning, InNormal, Write;
    if Print(v) == Print(w) {
      WriteInjective(Normal(v), Normal(w));
    }
    if Meaning(v) == Meaning(w) {
      NormalUnique(Normal(v), Normal(w));
    }
  }

  /** The text reads back to the same value, and printing what was read reproduces the text. */
  lemma PrintedReadsBack(v: Json)
    requires Proper(v)
    ensures Read(Print(v)).Some? && Read(Print(v)).value.1 == ""
    ensures Meaning(Read(Print(v)).value.0) == Meaning(v)
    ensures Print(Read(Print(v)).value.0) == Print(v)
  {
    NormalMeans(v);
    hide Normal, Meaning, InNormal, Write, Read;
    WriteReads(Normal(v), "");
    NormalOfNormal(Normal(v));
    assert Print(v) + "" == Print(v);
  }

  // ---- native values ----

  predicate DistinctNames(v: Native) {
    match v
    case Mapping(entries) => DistinctEntryNames(entries)
    case Sequence(elements) => DistinctElementNames(elements)
    case Time(_, _) => true
    case Uuid(_) => true
    case Enumerated(_) => true
    case Decimal => true
    case Float => true
    case Plain(_) => true
    case Other => true
  }

  predicate DistinctElementNames(e: Elements) {
    e.Element? ==> DistinctNames(e.first) && DistinctElementNames(e.others)
  }

  function Names(e: Entries): set<Option<string>> {
    if e.NoEntry? then {} else {e.name} + Names(e.more)
  }

  predicate DistinctEntryNames(e: Entries) {
    e.Entry? ==> e.name !in Names(e.more) && DistinctNames(e.item) && DistinctEntryNames(e.more)
  }

  /** A value normalises unless it holds a key that is not a string, a naive instant, a decimal, a float or
      another unsupported value. */
  predicate Printable(v: Native) {
    match v
    case Mapping(entries) => AllNamed(entries) && PrintableEntries(entries)
    case Sequence(elements) => PrintableElements(elements)
    case Time(_, aware) => aware
    case Uuid(_) => true
    case Enumerated(_) => true
    case Decimal => false
    case Float => false
    case Plain(json) => IsScalar(json)
    case Other => false
  }

  predicate PrintableElements(e: Elements) {
    e.Element? ==> Printable(e.first) && PrintableElements(e.others)
  }

  predicate PrintableEntries(e: Entries) {
    e.Entry? ==> Printable(e.item) && PrintableEntries(e.more)
  }

  /** Normalising succeeds exactly on printable values, and what it returns is a proper JSON value. */
  lemma {:induction false} CanonicalExactly(v: Native)
    requires DistinctNames(v)
    ensures Canonical(v).Ok? <==> Printable(v)
    ensures Canonical(v).Ok? ==> Proper(Canonical(v).value)
    decreases v, 0
  {
    if v.Sequence? {
      CanonicalElementsExactly(v.elements);
    } else if v.Mapping? && AllNamed(v.entries) {
      CanonicalEntriesExactly(v.entries);
    }
  }

  lemma {:induction false} CanonicalElementsExactly(e: Elements)
    requires DistinctElementNames(e)
    ensures CanonicalElements(e).Ok? <==> PrintableElements(e)
    ensures CanonicalElements(e).Ok? ==> ProperItems(CanonicalElements(e).value)
    decreases e, 1
  {
    if e.Element? {
      CanonicalExactly(e.first);
      CanonicalElementsExactly(e.others);
    }
  }

  lemma {:induction false} CanonicalEntriesExactly(e: Entries)
    requires DistinctEntryNames(e) && AllNamed(e)
    ensures CanonicalEntries(e).Ok? <==> PrintableEntries(e)
    ensures CanonicalEntries(e).Ok? ==>
      ProperFields(CanonicalEntries(e).value) && forall k <- Keys(CanonicalEntries(e).value) :: Some(k) in Names(e)
    decreases e, 1
  {
    if e.Entry? {
      CanonicalExactly(e.item);
      CanonicalEntriesExactly(e.more);
    }
  }
}
