/** Payloads as Python's json module writes and reads them back: dict keys are sorted, then
    rendered as strings (audit/log.py `_canonical_hash`, audit/store.py). */
module Json {
  import opened Collections
  import opened Market

  datatype Key = Name(text: string) | Number(value: int)

  /** A leaf is the text of a scalar, or of the string that stands in for any other object. */
  datatype Value = Leaf(text: string) | List(items: seq<Value>) | Dict(entries: seq<Entry>)

  datatype Entry = Entry(key: Key, value: Value)

  function Digits(n: nat): string {
    if n < 10 then [DigitOf(n)] else Digits(n / 10) + [DigitOf(n % 10)]
  }

  function DigitOf(n: nat): char
    requires n < 10
  {
    (('0' as int) + n) as char
  }

  function KeyText(k: Key): string {
    match k
    case Name(text) => text
    case Number(n) => if n < 0 then "-" + Digits(-n) else Digits(n)
  }

  predicate KeyLeq(a: Key, b: Key) {
    match (a, b)
    case (Name(x), Name(y)) => SymbolLeq(x, y)
    case (Number(x), Number(y)) => x <= y
    case (Number(_), Name(_)) => true
    case (Name(_), Number(_)) => false
  }

  predicate EntryLeq(a: Entry, b: Entry) {
    KeyLeq(a.key, b.key)
  }

  lemma EntryOrder()
    ensures TotalPreorder(EntryLeq)
  {
    forall a: Entry, b: Entry ensures EntryLeq(a, b) || EntryLeq(b, a) {
      if a.key.Name? && b.key.Name? {
        SymbolLeqTotal(a.key.text, b.key.text);
      }
    }
    forall a: Entry, b: Entry, c: Entry | EntryLeq(a, b) && EntryLeq(b, c) ensures EntryLeq(a, c) {
      if a.key.Name? && b.key.Name? && c.key.Name? {
        SymbolLeqTransitive(a.key.text, b.key.text, c.key.text);
      }
    }
  }

  /** Sorting keys of both kinds in one dict raises. */
  predicate Sortable(v: Value) {
    match v
    case Leaf(_) => true
    case List(items) => forall i :: 0 <= i < |items| ==> Sortable(items[i])
    case Dict(entries) =>
      && (forall i, j :: 0 <= i < |entries| && 0 <= j < |entries| ==> entries[i].key.Name? == entries[j].key.Name?)
      && (forall i :: 0 <= i < |entries| ==> Sortable(entries[i].value))
  }

  // ------------------------------------------------------------- the written text

  function Rendered(entries: seq<Entry>): (r: seq<Entry>)
    ensures |r| == |entries|
    ensures forall i :: 0 <= i < |r| ==> r[i] == Entry(Name(KeyText(entries[i].key)), entries[i].value)
  {
    seq(|entries|, i requires 0 <= i < |entries| => Entry(Name(KeyText(entries[i].key)), entries[i].value))
  }

  /** The text json.dumps(sort_keys=True) writes, as a tree whose dicts list string keys in the
      order written. Reading the text gives this tree. */
  function Canon(v: Value): Value {
    match v
    case Leaf(_) => v
    case List(items) => List(CanonItems(items))
    case Dict(entries) => Dict(Rendered(SortBy(CanonValues(entries), EntryLeq)))
  }

  function CanonItems(items: seq<Value>): (r: seq<Value>)
    ensures |r| == |items|
  {
    if items == [] then [] else [Canon(items[0])] + CanonItems(items[1..])
  }

  function CanonValues(entries: seq<Entry>): (r: seq<Entry>)
    ensures |r| == |entries|
  {
    if entries == [] then []
    else [CanonEntry(entries[0])] + CanonValues(entries[1..])
  }

  function CanonEntry(e: Entry): Entry {
    Entry(e.key, Canon(e.value))
  }

  // ------------------------------------------------------------- what reads back unchanged

  predicate StringKeyed(v: Value) {
    match v
    case Leaf(_) => true
    case List(items) => forall i :: 0 <= i < |items| ==> StringKeyed(items[i])
    case Dict(entries) => forall i :: 0 <= i < |entries| ==> entries[i].key.Name? && StringKeyed(entries[i].value)
  }

  /** Every dict lists its keys in the order of their names. */
  predicate InNameOrder(v: Value) {
    match v
    case Leaf(_) => true
    case List(items) => forall i :: 0 <= i < |items| ==> InNameOrder(items[i])
    case Dict(entries) => SortedBy(entries, EntryLeq) && forall i :: 0 <= i < |entries| ==> InNameOrder(entries[i].value)
  }

  lemma {:induction false} CanonItemsAt(items: seq<Value>)
    ensures forall i :: 0 <= i < |items| ==> CanonItems(items)[i] == Canon(items[i])
  {
    if items != [] {
      CanonItemsAt(items[1..]);
    }
  }

  lemma {:induction false} CanonValuesAt(entries: seq<Entry>)
    ensures forall i :: 0 <= i < |entries| ==> CanonValues(entries)[i] == Entry(entries[i].key, Canon(entries[i].value))
  {
    if entries != [] {
      CanonValuesAt(entries[1..]);
    }
  }

  /** A written text has only string keys. */
  lemma {:induction false} CanonIsStringKeyed(v: Value)
    ensures StringKeyed(Canon(v))
    decreases v
  {
    match v
    case Leaf(_) =>
    case List(items) =>
      CanonItemsAt(items);
      forall i | 0 <= i < |items| ensures StringKeyed(Canon(items[i])) {
        CanonIsStringKeyed(items[i]);
      }
    case Dict(entries) =>
      CanonValuesAt(entries);
      var sorted := SortBy(CanonValues(entries), EntryLeq);
      SortByContents(CanonValues(entries), EntryLeq);
      forall i | 0 <= i < |sorted| ensures StringKeyed(sorted[i].value) {
        assert sorted[i] in CanonValues(entries);
        var k :| 0 <= k < |entries| && CanonValues(entries)[k] == sorted[i];
        CanonIsStringKeyed(entries[k].value);
      }
  }

  lemma SortedNames(entries: seq<Entry>)
    requires forall i :: 0 <= i < |entries| ==> entries[i].key.Name?
    ensures Rendered(SortBy(entries, EntryLeq)) == SortBy(entries, EntryLeq)
  {
    SortByContents(entries, EntryLeq);
    var sorted := SortBy(entries, EntryLeq);
    forall i | 0 <= i < |sorted| ensures sorted[i].key.Name? {
      assert sorted[i] in entries;
    }
  }

  /** A string-keyed text is its own canonical form exactly when its keys are in name order. */
  lemma {:induction false} CanonFixedIff(v: Value)
    requires StringKeyed(v)
    ensures Canon(v) == v <==> InNameOrder(v)
    decreases v
  {
    match v
    case Leaf(_) =>
    case List(items) =>
      CanonItemsAt(items);
      forall i | 0 <= i < |items| ensures Canon(items[i]) == items[i] <==> InNameOrder(items[i]) {
        CanonFixedIff(items[i]);
      }
      if InNameOrder(v) {
        assert CanonItems(items) == items;
      }
    case Dict(entries) =>
      var inner := CanonValues(entries);
      CanonValuesAt(entries);
      SortedNames(inner);
      forall i | 0 <= i < |entries| ensures Canon(entries[i].value) == entries[i].value <==> InNameOrder(entries[i].value) {
        CanonFixedIff(entries[i].value);
      }
      if InNameOrder(v) {
        assert inner == entries;
        SortOfSorted(entries, EntryLeq);
      }
      if Canon(v) == v {
        EntryOrder();
        SortBySorted(inner, EntryLeq);
        assert SortedBy(entries, EntryLeq);
        assert SortedBy(inner, EntryLeq);
        SortOfSorted(inner, EntryLeq);
      }
  }

  /** What is written reads back to the same text if and only if sorting by key and sorting by
      rendered name agree in every dict. */
  lemma StableIff(v: Value)
    ensures Canon(Canon(v)) == Canon(v) <==> InNameOrder(Canon(v))
  {
    CanonIsStringKeyed(v);
    CanonFixedIff(Canon(v));
  }

  /** String-keyed payloads always read back to the same text. */
  lemma {:induction false} StringKeysAreStable(v: Value)
    requires StringKeyed(v)
    ensures InNameOrder(Canon(v))
    decreases v
  {
    match v
    case Leaf(_) =>
    case List(items) =>
      CanonItemsAt(items);
      forall i | 0 <= i < |items| ensures InNameOrder(Canon(items[i])) {
        StringKeysAreStable(items[i]);
      }
    case Dict(entries) =>
      var inner := CanonValues(entries);
      CanonValuesAt(entries);
      SortedNames(inner);
      EntryOrder();
      SortBySorted(inner, EntryLeq);
      SortByContents(inner, EntryLeq);
      var sorted := SortBy(inner, EntryLeq);
      forall i | 0 <= i < |sorted| ensures InNameOrder(sorted[i].value) {
        assert sorted[i] in inner;
        var k :| 0 <= k < |entries| && inner[k] == sorted[i];
        StringKeysAreStable(entries[k].value);
      }
  }

  /** Integer keys need not: {9: ..., 10: ...} is written with "9" first and read back, as names,
      with "10" first. */
  lemma IntegerKeysReadBackReordered(a: Value, b: Value)
    ensures var v := Dict([Entry(Number(9), a), Entry(Number(10), b)]);
      (Sortable(a) && Sortable(b) ==> Sortable(v)) && Canon(Canon(v)) != Canon(v)
  {
    var v := Dict([Entry(Number(9), a), Entry(Number(10), b)]);
    var inner := CanonValues(v.entries);
    CanonValuesAt(v.entries);
    assert SortedBy(inner, EntryLeq);
    SortOfSorted(inner, EntryLeq);
    assert Digits(10) == Digits(1) + [DigitOf(0)] == "10";
    assert Digits(9) == "9";
    var c := Canon(v).entries;
    assert c[0].key == Name("9") && c[1].key == Name("10");
    assert !SymbolLeq("9", "10");
    assert !InNameOrder(Canon(v));
    StableIff(v);
  }

  /** A payload that maps a name to counts keyed 9 and 10. */
  function Nested(): Value {
    Dict([Entry(Name("counts"), Dict([Entry(Number(9), Leaf("1")), Entry(Number(10), Leaf("1"))]))])
  }

  /** Under a string key, as a payload annotated `dict[str, Any]` may hold them, they are reordered too. */
  lemma NestedIntegerKeysReadBackReordered()
    ensures Sortable(Nested()) && !InNameOrder(Canon(Nested()))
  {
    var inner := Dict([Entry(Number(9), Leaf("1")), Entry(Number(10), Leaf("1"))]);
    var v := Nested();
    IntegerKeysReadBackReordered(Leaf("1"), Leaf("1"));
    StableIff(inner);
    assert v.entries[0] == Entry(Name("counts"), inner);
    var values := CanonValues(v.entries);
    CanonValuesAt(v.entries);
    SortOfSorted(values, EntryLeq);
    assert Canon(v).entries[0].value == Canon(inner);
  }
}
