/**
 * Enumerations: ordered lists of (integer value, text id) items, built from
 * the metadata of a C++ enum (`fromEnum`) or of a Qt meta-enum (`fromQENUM`).
 */
module Enumerations {
  /** A translatable text: a context and a key within it. */
  datatype TextId = TextId(context: string, key: string)

  /** One item of an enumeration. */
  datatype Item = Item(value: int, name: TextId)

  /** One entry of `MetaEnum::entries<ENUM>()`: the enumerator and its name. */
  datatype MetaEntry = MetaEntry(enumerator: int, name: string)

  /** Entry `i` of a Qt meta-enum: `key(i)` and `value(i)`. */
  datatype MetaEnumKey = MetaEnumKey(key: string, value: int)

  /** The Enumeration object; `addItem` appends one item at the end. */
  class Enumeration {
    var items: seq<Item>

    constructor ()
      ensures items == []
    {
      items := [];
    }

    method AddItem(value: int, name: TextId)
      modifies this
      ensures items == old(items) + [Item(value, name)]
    {
      items := items + [Item(value, name)];
    }
  }

  /** The items `fromEnum` produces: entry i gives item i, named within `context`. */
  function EntryItems(entries: seq<MetaEntry>, context: string): (r: seq<Item>)
  {
    seq(|entries|, i requires 0 <= i < |entries| => Item(entries[i].enumerator, TextId(context, entries[i].name)))
  }

  /** The items `fromQENUM` produces: index i gives the item (value(i), key(i)). */
  function MetaEnumItems(metaEnum: seq<MetaEnumKey>, context: string): (r: seq<Item>)
  {
    seq(|metaEnum|, i requires 0 <= i < |metaEnum| => Item(metaEnum[i].value, TextId(context, metaEnum[i].key)))
  }

  /** Enumeration::fromEnum: one item per entry, in entry order, all keys in `context`. */
  method FromEnum(entries: seq<MetaEntry>, context: string) returns (e: Enumeration)
    ensures fresh(e)
    ensures |e.items| == |entries|
    ensures forall i :: 0 <= i < |entries| ==>
      e.items[i].value == entries[i].enumerator && e.items[i].name == TextId(context, entries[i].name)
  {
    e := new Enumeration();
    for k := 0 to |entries|
      invariant e.items == EntryItems(entries[..k], context)
    {
      var entry := entries[k];
      e.AddItem(entry.enumerator, TextId(context, entry.name));
    }
  }

  /** Enumeration::fromQENUM: items for indices 0..keyCount-1 in order. */
  method FromQEnum(metaEnum: seq<MetaEnumKey>, context: string) returns (e: Enumeration)
    ensures fresh(e)
    ensures |e.items| == |metaEnum|
    ensures forall i :: 0 <= i < |metaEnum| ==>
      e.items[i].value == metaEnum[i].value && e.items[i].name == TextId(context, metaEnum[i].key)
  {
    e := new Enumeration();
    var i := 0;
    while i < |metaEnum|
      invariant 0 <= i <= |metaEnum|
      invariant e.items == MetaEnumItems(metaEnum[..i], context)
    {
      e.AddItem(metaEnum[i].value, TextId(context, metaEnum[i].key));
      i := i + 1;
    }
  }

  /**
   * Enumeration::findIndex: the index of the first item holding `value`, or
   * -1 when no item holds it.
   */
  function FindIndex(items: seq<Item>, value: int): (r: int)
    ensures -1 <= r < |items|
    ensures r == -1 <==> forall j :: 0 <= j < |items| ==> items[j].value != value
    ensures r >= 0 ==> items[r].value == value && forall j :: 0 <= j < r ==> items[j].value != value
  {
    if items == [] then -1
    else if items[0].value == value then 0
    else
      var k := FindIndex(items[1..], value);
      if k == -1 then -1 else k + 1
  }

  /** The values of an enumeration's items, in order. */
  function Values(items: seq<Item>): (r: seq<int>)
    ensures |r| == |items|
  {
    seq(|items|, i requires 0 <= i < |items| => items[i].value)
  }

  /**
   * An enumeration built by `fromEnum` from entries with pairwise distinct
   * enumerators finds entry i's enumerator at index i.
   */
  lemma {:induction false} FromEnumFindsEntry(entries: seq<MetaEntry>, context: string, i: int)
    requires 0 <= i < |entries|
    requires forall a, b :: 0 <= a < b < |entries| ==> entries[a].enumerator != entries[b].enumerator
    ensures FindIndex(EntryItems(entries, context), entries[i].enumerator) == i
  {
    var items := EntryItems(entries, context);
    var r := FindIndex(items, entries[i].enumerator);
    assert items[i].value == entries[i].enumerator;
    assert r != -1;
  }
}
