/** Which values the decoder can give: the round trip, stated for values instead of items. */
module CborValues {
  import opened Entities
  import opened Bytes
  import opened Cbor
  import opened CborEncoding

  // The argument of a head fits in eight bytes
  predicate Countable(n: nat) {
    n < Pow256(8)
  }

  predicate KeyFits(key: Key) {
    match key
    case IntKey(i) => -1 - MAX_INT64 <= i <= MAX_INT64
    case TextKey(s) => Countable(|s|)
  }

  // Nested no deeper than the limit allows from here, with int64 integers and countable lengths
  ghost predicate Representable(v: Value, depth: nat)
    decreases MAX_DEPTH + 1 - depth
  {
    && depth <= MAX_DEPTH
    && match v
       case Int(i) => -1 - MAX_INT64 <= i <= MAX_INT64
       case ByteString(bytes) => Countable(|bytes|)
       case Text(s) => Countable(|s|)
       case Array(items) => Countable(|items|) && forall i :: 0 <= i < |items| ==> Representable(items[i], depth + 1)
       case Map(entries) =>
         Countable(|entries|) && forall k :: k in entries ==> KeyFits(k) && Representable(entries[k], depth + 1)
  }

  lemma IntegersAreCountable()
    ensures MAX_INT64 < Pow256(8)
  {
    assert Pow256(2) == 0x1_0000;
    assert Pow256(4) == 0x1_0000_0000;
    assert Pow256(6) == 0x1_0000_0000_0000;
  }

  // ---- Every representable value has an encoding ----

  function KeyItem(key: Key): Item {
    match key
    case IntKey(i) => if i >= 0 then Unsigned(27, i) else Negative(27, -1 - i)
    case TextKey(s) => Characters(27, s)
  }

  lemma KeyItemIsLegal(key: Key, depth: nat)
    requires KeyFits(key) && depth <= MAX_DEPTH
    ensures Legal(KeyItem(key), depth) && IsKey(KeyItem(key)) && Name(KeyItem(key)) == Some(key)
  {
    hide Pow256;
    IntegersAreCountable();
  }

  // Values without elements
  function Atom(v: Value): Item {
    match v
    case Int(i) => KeyItem(IntKey(i))
    case ByteString(bytes) => Octets(27, bytes)
    case Text(s) => Characters(27, s)
    case _ => Unsigned(0, 0)
  }

  lemma {:induction false} ValuesOfAppend(items: seq<Item>, item: Item)
    ensures ValuesOf(items + [item]) == ValuesOf(items) + [ValueOf(item)]
  {
    if items == [] {
      assert items + [item] == [item] && [item][1..] == [];
    } else {
      assert (items + [item])[0] == items[0] && (items + [item])[1..] == items[1..] + [item];
      ValuesOfAppend(items[1..], item);
    }
  }

  lemma {:induction false} EntriesOfAppend(cells: seq<Item>, key: Item, v: Item, done: map<Key, Value>)
    requires |cells| % 2 == 0 && Name(key).Some?
    ensures EntriesOf(cells + [key, v], done) == EntriesOf(cells, done)[Name(key).value := ValueOf(v)]
    decreases |cells|
  {
    hide ValueOf, Name;
    var more := cells + [key, v];
    if cells == [] {
      assert more == [key, v] && more[2..] == [];
    } else {
      assert more[0] == cells[0] && more[1] == cells[1] && more[2..] == cells[2..] + [key, v];
      match Name(cells[0])
      case None => EntriesOfAppend(cells[2..], key, v, done);
      case Some(k) => EntriesOfAppend(cells[2..], key, v, done[k := ValueOf(cells[1])]);
    }
  }

  lemma CellsAppend(cells: seq<Item>, key: Item, v: Item, depth: nat)
    requires KeysAlternate(cells) && AllLegal(cells, depth) && IsKey(key) && Legal(key, depth) && Legal(v, depth)
    ensures KeysAlternate(cells + [key, v]) && AllLegal(cells + [key, v], depth)
  {
    hide Legal, IsKey;
  }

  lemma {:induction false} ItemsFor(values: seq<Value>, depth: nat) returns (items: seq<Item>)
    requires depth <= MAX_DEPTH && forall i :: 0 <= i < |values| ==> Representable(values[i], depth + 1)
    ensures |items| == |values| && AllLegal(items, depth + 1) && ValuesOf(items) == values
    decreases MAX_DEPTH + 1 - depth, 0, |values|
  {
    hide Legal, Representable;
    if values == [] {
      items := [];
    } else {
      var n := |values| - 1;
      var front := ItemsFor(values[..n], depth);
      var last := ItemFor(values[n], depth + 1);
      ValuesOfAppend(front, last);
      assert values == values[..n] + [values[n]];
      items := front + [last];
    }
  }

  lemma {:induction false} CellsFor(entries: map<Key, Value>, depth: nat) returns (cells: seq<Item>)
    requires depth <= MAX_DEPTH && forall k :: k in entries ==> KeyFits(k) && Representable(entries[k], depth + 1)
    ensures |cells| == 2 * |entries| && KeysAlternate(cells) && AllLegal(cells, depth + 1)
    ensures EntriesOf(cells, map[]) == entries
    decreases MAX_DEPTH + 1 - depth, 0, |entries|
  {
    hide Legal, Representable, KeyFits, KeyItem, Name, IsKey;
    if entries == map[] {
      cells := [];
    } else {
      var k :| k in entries;
      var rest := entries - {k};
      assert rest.Keys == entries.Keys - {k};
      var front := CellsFor(rest, depth);
      var v := ItemFor(entries[k], depth + 1);
      KeyAtDepth(entries[k], k, depth);
      CellsAppend(front, KeyItem(k), v, depth + 1);
      EntriesOfAppend(front, KeyItem(k), v, map[]);
      assert entries == rest[k := entries[k]];
      cells := front + [KeyItem(k), v];
    }
  }

  lemma KeyAtDepth(v: Value, key: Key, depth: nat)
    requires Representable(v, depth + 1) && KeyFits(key)
    ensures Legal(KeyItem(key), depth + 1) && IsKey(KeyItem(key)) && Name(KeyItem(key)) == Some(key)
  {
    KeyItemIsLegal(key, depth + 1);
  }

  lemma AtomIsLegal(v: Value, depth: nat)
    requires Representable(v, depth) && !v.Array? && !v.Map?
    ensures Legal(Atom(v), depth) && ValueOf(Atom(v)) == v
  {
    hide Pow256;
    if v.Int? {
      KeyItemIsLegal(IntKey(v.i), depth);
    }
  }

  /** Every representable value is the value of some legal item. */
  lemma {:induction false} ItemFor(v: Value, depth: nat) returns (item: Item)
    requires Representable(v, depth)
    ensures Legal(item, depth) && ValueOf(item) == v
    decreases MAX_DEPTH + 1 - depth, 1, 0
  {
    hide Pow256;
    match v
    case Array(values) =>
      var items := ItemsFor(values, depth);
      item := List(27, items);
    case Map(entries) =>
      var cells := CellsFor(entries, depth);
      item := Table(27, cells);
    case _ =>
      AtomIsLegal(v, depth);
      item := Atom(v);
  }

  // ---- Every legal item has a representable value ----

  lemma {:induction false} ValuesAre(items: seq<Item>)
    ensures |ValuesOf(items)| == |items|
    ensures forall i :: 0 <= i < |items| ==> ValuesOf(items)[i] == ValueOf(items[i])
  {
    if items != [] {
      ValuesAre(items[1..]);
    }
  }

  lemma ArgumentIsCountable(item: Item, depth: nat)
    requires Legal(item, depth)
    ensures Countable(Argument(item))
  {
    WidthsAgree(item.ai);
    assert Pow256(1) <= Pow256(2) <= Pow256(4) <= Pow256(8) by {
      assert Pow256(4) == 0x1_0000_0000;
      assert Pow256(6) == 0x1_0000_0000_0000;
    }
  }

  lemma KeyOfLegalFits(item: Item, depth: nat)
    requires Legal(item, depth) && IsKey(item)
    ensures Name(item).Some? && KeyFits(Name(item).value)
  {
    hide Pow256;
    ArgumentIsCountable(item, depth);
  }

  lemma {:induction false} EntriesAreRepresentable(cells: seq<Item>, done: map<Key, Value>, depth: nat)
    requires depth <= MAX_DEPTH && KeysAlternate(cells) && AllLegal(cells, depth + 1)
    requires forall k :: k in done ==> KeyFits(k) && Representable(done[k], depth + 1)
    ensures forall k :: k in EntriesOf(cells, done) ==>
        KeyFits(k) && Representable(EntriesOf(cells, done)[k], depth + 1)
    ensures |EntriesOf(cells, done)| <= |done| + |cells| / 2
    decreases MAX_DEPTH + 1 - depth, 0, |cells|
  {
    hide Legal, Representable, KeyFits, ValueOf, Name, IsKey;
    if |cells| >= 2 {
      KeyOfLegalFits(cells[0], depth + 1);
      LegalIsRepresentable(cells[1], depth + 1);
      var key := Name(cells[0]).value;
      var more := done[key := ValueOf(cells[1])];
      assert more.Keys == done.Keys + {key};
      assert |more| <= |done| + 1;
      AlternateAfterTwo(cells, depth + 1);
      EntriesAreRepresentable(cells[2..], more, depth);
    }
  }

  lemma AlternateAfterTwo(cells: seq<Item>, depth: nat)
    requires |cells| >= 2 && KeysAlternate(cells) && AllLegal(cells, depth)
    ensures KeysAlternate(cells[2..]) && AllLegal(cells[2..], depth) && |cells[2..]| / 2 + 1 == |cells| / 2
  {
    hide Legal, IsKey;
    forall i | 0 <= i < |cells[2..]| && i % 2 == 0
      ensures IsKey(cells[2..][i])
    {
      assert cells[2..][i] == cells[i + 2];
    }
  }

  /** The value of a legal item is representable. */
  lemma {:induction false} LegalIsRepresentable(item: Item, depth: nat)
    requires Legal(item, depth)
    ensures Representable(ValueOf(item), depth)
    decreases MAX_DEPTH + 1 - depth, 1, 0
  {
    hide Pow256;
    ArgumentIsCountable(item, depth);
    match item
    case List(_, items) =>
      ValuesAre(items);
      forall i | 0 <= i < |items|
        ensures Representable(ValueOf(items[i]), depth + 1)
      {
        LegalIsRepresentable(items[i], depth + 1);
      }
    case Table(_, cells) => EntriesAreRepresentable(cells, map[], depth);
    case _ =>
  }

  /** Whatever the decoder gives is representable. */
  lemma DecodedIsRepresentable(data: seq<byte>, depth: nat, guarded: bool)
    requires Decode(data, depth, guarded).Ok?
    ensures Representable(Decode(data, depth, guarded).value.value, depth)
  {
    var item := DecodedWasEncoded(data, depth, guarded);
    LegalIsRepresentable(item, depth);
  }

  // These bytes decode to the value and leave over whatever follows them
  ghost predicate Encodes(data: seq<byte>, v: Value, depth: nat, guarded: bool) {
    forall s: seq<byte> {:trigger data + s} :: Decode(data + s, depth, guarded) == Ok(Parsed(v, s))
  }

  /** A value has an encoding that round-trips if and only if it is representable. */
  lemma DecodableExactly(v: Value, depth: nat, guarded: bool)
    ensures Representable(v, depth) <==> exists data :: Encodes(data, v, depth, guarded)
  {
    hide Decode, Representable, Legal, Encode;
    if Representable(v, depth) {
      var item := ItemFor(v, depth);
      forall s: seq<byte>
        ensures Decode(Encode(item) + s, depth, guarded) == Ok(Parsed(v, s))
      {
        DecodeInvertsEncode(item, depth, guarded, s);
      }
      assert Encodes(Encode(item), v, depth, guarded);
    }
    forall data | Encodes(data, v, depth, guarded)
      ensures Representable(v, depth)
    {
      var none: seq<byte> := [];
      assert Decode(data + none, depth, guarded) == Ok(Parsed(v, none));
      DecodedIsRepresentable(data + none, depth, guarded);
    }
  }
}
