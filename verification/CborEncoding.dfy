/** An encoder for the same CBOR subset, written from section 3 of RFC 8949, and what it says about the decoder. */
module CborEncoding {
  import opened Entities
  import opened Bytes
  import opened Cbor

  // A data item as written: every head names its additional information, so the width of its argument is free
  datatype Item =
    | Unsigned(ai: int, n: nat)
    | Negative(ai: int, n: nat)
    | Octets(ai: int, bytes: seq<byte>)
    | Characters(ai: int, s: seq<byte>)
    | List(ai: int, items: seq<Item>)
    | Table(ai: int, cells: seq<Item>) // key, value, key, value, ...

  // The argument of a head
  function Argument(item: Item): nat {
    match item
    case Unsigned(_, n) => n
    case Negative(_, n) => n
    case Octets(_, bytes) => |bytes|
    case Characters(_, s) => |s|
    case List(_, items) => |items|
    case Table(_, cells) => |cells| / 2
  }

  // 24 announces an argument of one byte, and each of 25, 26 and 27 doubles it
  function ArgumentBytes(ai: int): nat
    decreases if ai > 24 then ai - 24 else 0
  {
    if 24 < ai < 28 then 2 * ArgumentBytes(ai - 1) else if ai == 24 then 1 else 0
  }

  predicate Fits(ai: int, n: nat) {
    (0 <= ai < 24 && n == ai) || (24 <= ai < 28 && n < Pow256(ArgumentBytes(ai)))
  }

  /** The decoder reads as many argument bytes as section 3 of RFC 8949 says. */
  lemma ArgumentsAreRead(ai: int, data: seq<byte>)
    ensures ReadLen(ai, data).Ok? <==> 0 <= ai < 28 && |data| >= ArgumentBytes(ai)
    ensures ReadLen(ai, data).Ok? ==> ReadLen(ai, data).value.rest == data[ArgumentBytes(ai)..]
    ensures ReadLen(ai, data).Err? ==>
              ReadLen(ai, data).error == if 0 <= ai < 28 then UnexpectedEOF else UnsupportedLength
  {
    assert ArgumentBytes(24) == 1 && ArgumentBytes(25) == 2 && ArgumentBytes(26) == 4 && ArgumentBytes(27) == 8;
  }

  // May stand at this nesting depth: arguments fit their heads, integers fit int64, keys are integers or text
  ghost predicate Legal(item: Item, depth: nat) {
    && depth <= 32 && Fits(item.ai, Argument(item))
    && (item.Unsigned? || item.Negative? ==> item.n < 0x8000_0000_0000_0000)
    && (item.List? ==> forall i :: 0 <= i < |item.items| ==> Legal(item.items[i], depth + 1))
    && (item.Table? ==>
          KeysAlternate(item.cells) && forall i :: 0 <= i < |item.cells| ==> Legal(item.cells[i], depth + 1))
  }

  ghost predicate AllLegal(items: seq<Item>, depth: nat) {
    forall i :: 0 <= i < |items| ==> Legal(items[i], depth)
  }

  ghost predicate KeysAlternate(cells: seq<Item>) {
    |cells| % 2 == 0 && forall i :: 0 <= i < |cells| && i % 2 == 0 ==> IsKey(cells[i])
  }

  predicate IsKey(item: Item) {
    item.Unsigned? || item.Negative? || item.Characters?
  }

  function Major(item: Item): nat {
    match item
    case Unsigned(_, _) => 0
    case Negative(_, _) => 1
    case Octets(_, _) => 2
    case Characters(_, _) => 3
    case List(_, _) => 4
    case Table(_, _) => 5
  }

  function Head(major: nat, ai: int, n: nat): seq<byte>
    requires major < 8 && 0 <= ai < 32
  {
    [32 * major + ai] + ToBigEndian(n, ArgumentBytes(ai))
  }

  function Encode(item: Item): seq<byte>
    decreases item, 1
  {
    if 0 <= item.ai < 32 then Head(Major(item), item.ai, Argument(item)) + Body(item) else []
  }

  function Body(item: Item): seq<byte>
    decreases item, 0
  {
    match item
    case Octets(_, bytes) => bytes
    case Characters(_, s) => s
    case List(_, items) => EncodeAll(items)
    case Table(_, cells) => EncodeAll(cells)
    case _ => []
  }

  function EncodeAll(items: seq<Item>): seq<byte>
    decreases items, 2
  {
    if items == [] then [] else Encode(items[0]) + EncodeAll(items[1..])
  }

  function ValueOf(item: Item): Value {
    match item
    case Unsigned(_, n) => Int(n)
    case Negative(_, n) => Int(-1 - n)
    case Octets(_, bytes) => ByteString(bytes)
    case Characters(_, s) => Text(s)
    case List(_, items) => Array(ValuesOf(items))
    case Table(_, cells) => Map(EntriesOf(cells, map[]))
  }

  function ValuesOf(items: seq<Item>): seq<Value> {
    if items == [] then [] else [ValueOf(items[0])] + ValuesOf(items[1..])
  }

  // A repeated key keeps its last value
  function EntriesOf(cells: seq<Item>, done: map<Key, Value>): map<Key, Value>
    decreases cells
  {
    if |cells| < 2 then done
    else match Name(cells[0])
         case None => EntriesOf(cells[2..], done)
         case Some(key) => EntriesOf(cells[2..], done[key := ValueOf(cells[1])])
  }

  // The map key an item stands for
  function Name(item: Item): Option<Key> {
    match item
    case Unsigned(_, n) => Some(IntKey(n))
    case Negative(_, n) => Some(IntKey(-1 - n))
    case Characters(_, s) => Some(TextKey(s))
    case _ => None
  }

  // ---- Decoding inverts encoding ----

  lemma WidthsAgree(ai: int)
    ensures ArgumentBytes(ai) == Width(ai)
  {
    assert ArgumentBytes(24) == 1 && ArgumentBytes(25) == 2 && ArgumentBytes(26) == 4 && ArgumentBytes(27) == 8;
  }

  lemma ReadLenOfHead(major: nat, ai: int, n: nat, tail: seq<byte>)
    requires major < 8 && Fits(ai, n)
    ensures var data := Head(major, ai, n) + tail;
            data != [] && data[0] / 32 == major && data[0] % 32 == ai && ReadLen(ai, data[1..]) == Ok(Parsed(n, tail))
  {
    var argument, width := ToBigEndian(n, ArgumentBytes(ai)), ArgumentBytes(ai);
    var data := Head(major, ai, n) + tail;
    assert data[1..] == argument + tail;
    WidthsAgree(ai);
    if ai >= 24 {
      BigEndianOfTo(n, width);
      assert (argument + tail)[..width] == argument && (argument + tail)[width..] == tail;
    } else {
      assert argument + tail == tail;
    }
  }

  lemma {:induction false} EncodeAllLength(items: seq<Item>, depth: nat)
    requires AllLegal(items, depth)
    ensures |EncodeAll(items)| >= |items|
  {
    if items != [] {
      assert Legal(items[0], depth);
      EncodeAllLength(items[1..], depth);
    }
  }

  /** Decoding what was encoded gives the value back and leaves what follows, with or without the length guards. */
  lemma {:induction false} DecodeInvertsEncode(item: Item, depth: nat, guarded: bool, s: seq<byte>)
    requires Legal(item, depth)
    ensures Decode(Encode(item) + s, depth, guarded) == Ok(Parsed(ValueOf(item), s))
    decreases item, 1
  {
    var body := Body(item);
    assert Encode(item) + s == Head(Major(item), item.ai, Argument(item)) + (body + s);
    ReadLenOfHead(Major(item), item.ai, Argument(item), body + s);
    DecodeBodyInverts(item, depth, guarded, s);
  }

  lemma {:induction false} DecodeBodyInverts(item: Item, depth: nat, guarded: bool, s: seq<byte>)
    requires Legal(item, depth)
    ensures DecodeBody(Major(item), Argument(item), Body(item) + s, depth, guarded) == Ok(Parsed(ValueOf(item), s))
    decreases item, 0
  {
    hide DecodeItems, DecodePairs;
    var data := Body(item) + s;
    match item
    case Unsigned(_, _) => assert data == s;
    case Negative(_, _) => assert data == s;
    case Octets(_, bytes) => assert data[..|bytes|] == bytes && data[|bytes|..] == s;
    case Characters(_, t) => assert data[..|t|] == t && data[|t|..] == s;
    case List(_, items) =>
      EncodeAllLength(items, depth + 1);
      DecodeItemsInverts(items, depth, guarded, [], s);
      assert [] + ValuesOf(items) == ValuesOf(items);
    case Table(_, cells) =>
      EncodeAllLength(cells, depth + 1);
      DecodePairsInverts(cells, depth, guarded, map[], s);
  }

  lemma {:induction false} DecodeItemsInverts(items: seq<Item>, depth: nat, guarded: bool, done: seq<Value>,
                                              s: seq<byte>)
    requires AllLegal(items, depth + 1)
    ensures DecodeItems(EncodeAll(items) + s, |items|, depth, guarded, done) == Ok(Parsed(done + ValuesOf(items), s))
    decreases items, 2
  {
    if items == [] {
      assert EncodeAll(items) + s == s && done + ValuesOf(items) == done;
    } else {
      var tail := EncodeAll(items[1..]) + s;
      assert EncodeAll(items) + s == Encode(items[0]) + tail;
      DecodeInvertsEncode(items[0], depth + 1, guarded, tail);
      DecodeItemsInverts(items[1..], depth, guarded, done + [ValueOf(items[0])], s);
      assert done + [ValueOf(items[0])] + ValuesOf(items[1..]) == done + ValuesOf(items);
    }
  }

  lemma KeyOfKey(item: Item)
    ensures KeyOf(ValueOf(item)) == Name(item) && (Name(item).Some? <==> IsKey(item))
  {
  }

  lemma TwoCellsOfBytes(cells: seq<Item>, s: seq<byte>)
    requires |cells| >= 2
    ensures EncodeAll(cells) + s == Encode(cells[0]) + (Encode(cells[1]) + (EncodeAll(cells[2..]) + s))
  {
    hide Encode;
    assert cells[1..][1..] == cells[2..];
  }

  lemma CellsInTwos(cells: seq<Item>, depth: nat, s: seq<byte>)
    requires |cells| >= 2 && KeysAlternate(cells) && AllLegal(cells, depth)
    ensures EncodeAll(cells) + s == Encode(cells[0]) + (Encode(cells[1]) + (EncodeAll(cells[2..]) + s))
    ensures KeysAlternate(cells[2..]) && AllLegal(cells[2..], depth)
    ensures Legal(cells[0], depth) && Legal(cells[1], depth)
    ensures Name(cells[0]).Some? && KeyOf(ValueOf(cells[0])) == Name(cells[0])
  {
    hide Encode, Legal, ValueOf, KeyOf, EncodeAll;
    KeyOfKey(cells[0]);
    TwoCellsOfBytes(cells, s);
    assert cells[1..][1..] == cells[2..];
    forall i | 0 <= i < |cells[2..]| && i % 2 == 0
      ensures IsKey(cells[2..][i])
    {
      assert cells[2..][i] == cells[i + 2];
    }
  }

  // One turn of the entry loop
  lemma PairStep(data: seq<byte>, key: Value, afterKey: seq<byte>, v: Value, rest: seq<byte>, n: nat, depth: nat,
                 guarded: bool,
                 done: map<Key, Value>)
    requires n > 0 && KeyOf(key).Some?
    requires Decode(data, depth + 1, guarded) == Ok(Parsed(key, afterKey))
    requires Decode(afterKey, depth + 1, guarded) == Ok(Parsed(v, rest))
    ensures DecodePairs(data, n, depth, guarded, done) ==
        DecodePairs(rest, n - 1, depth, guarded, done[KeyOf(key).value := v])
  {
    hide Decode;
  }

  lemma {:induction false} DecodePairsInverts(cells: seq<Item>, depth: nat, guarded: bool, done: map<Key, Value>,
                                              s: seq<byte>)
    requires AllLegal(cells, depth + 1)
    requires KeysAlternate(cells)
    ensures DecodePairs(EncodeAll(cells) + s, |cells| / 2, depth, guarded, done) ==
        Ok(Parsed(EntriesOf(cells, done), s))
    decreases cells, 2
  {
    hide Encode, Decode, ValueOf, KeyOf, Legal, KeysAlternate;
    if cells == [] {
      assert EncodeAll(cells) + s == s;
    } else {
      assert |cells| >= 2 by {
        TwoOrMore(cells);
      }
      CellsInTwos(cells, depth + 1, s);
      hide EncodeAll, DecodePairs, AllLegal;
      var tail := EncodeAll(cells[2..]) + s;
      var key, v := ValueOf(cells[0]), ValueOf(cells[1]);
      assert Legal(cells[0], depth + 1) && Legal(cells[1], depth + 1) && KeyOf(key).Some?;
      DecodeInvertsEncode(cells[0], depth + 1, guarded, Encode(cells[1]) + tail);
      DecodeInvertsEncode(cells[1], depth + 1, guarded, tail);
      PairStep(EncodeAll(cells) + s, key, Encode(cells[1]) + tail, v, tail, |cells| / 2, depth, guarded, done);
      DecodePairsInverts(cells[2..], depth, guarded, done[KeyOf(key).value := v], s);
    }
  }

  lemma TwoOrMore(cells: seq<Item>)
    requires cells != [] && KeysAlternate(cells)
    ensures |cells| >= 2
  {
  }

  // ---- Whatever is decoded was an encoding ----

  lemma HeadOfReadLen(data: seq<byte>, n: nat, rest: seq<byte>)
    requires data != [] && ReadLen(data[0] % 32, data[1..]) == Ok(Parsed(n, rest))
    ensures Fits(data[0] % 32, n) && data == Head(data[0] / 32, data[0] % 32, n) + rest && |rest| < |data|
  {
    hide ArgumentBytes, Pow256, BigEndian, ToBigEndian;
    var ai, argument := data[0] % 32, data[1..];
    assert data == [data[0]] + argument && data[0] == 32 * (data[0] / 32) + ai;
    WidthsAgree(ai);
    if ai >= 24 {
      var width := Width(ai);
      ToBigEndianOf(argument[..width]);
      assert argument == argument[..width] + argument[width..];
    } else {
      NoArgument(n);
    }
  }

  lemma NoArgument(n: nat)
    ensures ToBigEndian(n, 0) == []
  {
  }

  /** Whatever the decoder accepts is the encoding of a legal item with the decoded value, followed by what is left. */
  lemma {:induction false} DecodedWasEncoded(data: seq<byte>, depth: nat, guarded: bool) returns (item: Item)
    requires Decode(data, depth, guarded).Ok?
    ensures var r := Decode(data, depth, guarded).value;
            Legal(item, depth) && data == Encode(item) + r.rest && ValueOf(item) == r.value
    decreases |data|, 0
  {
    hide ReadLen, DecodeBody, Head;
    var head := ReadLen(data[0] % 32, data[1..]).value;
    HeadOfReadLen(data, head.value, head.rest);
    item := BodyWasEncoded(data[0] / 32, data[0] % 32, head.value, head.rest, depth, guarded);
    var r := Decode(data, depth, guarded).value;
    var h := Head(data[0] / 32, data[0] % 32, head.value);
    assert h + (Body(item) + r.rest) == h + Body(item) + r.rest;
  }

  lemma {:induction false} BodyWasEncoded(major: nat, ai: int, n: nat, rest: seq<byte>, depth: nat, guarded: bool)
    returns (item: Item)
    requires depth <= MAX_DEPTH && Fits(ai, n) && DecodeBody(major, n, rest, depth, guarded).Ok?
    ensures var r := DecodeBody(major, n, rest, depth, guarded).value;
            && Legal(item, depth) && Major(item) == major && item.ai == ai && Argument(item) == n
            && rest == Body(item) + r.rest && ValueOf(item) == r.value
    decreases |rest|, 2
  {
    hide DecodeItems, DecodePairs;
    match major
    case 0 => item := Unsigned(ai, n);
    case 1 => item := Negative(ai, n);
    case 2 => item := Octets(ai, rest[..n]);
    case 3 => item := Characters(ai, rest[..n]);
    case 4 =>
      var items := ItemsWereEncoded(rest, n, depth, guarded, []);
      item := List(ai, items);
      assert [] + ValuesOf(items) == ValuesOf(items);
    case 5 =>
      var cells := PairsWereEncoded(rest, n, depth, guarded, map[]);
      item := Table(ai, cells);
  }

  lemma {:induction false} ItemsWereEncoded(data: seq<byte>, n: nat, depth: nat, guarded: bool, done: seq<Value>)
    returns (items: seq<Item>)
    requires DecodeItems(data, n, depth, guarded, done).Ok?
    ensures var r := DecodeItems(data, n, depth, guarded, done).value;
            |items| == n && AllLegal(items, depth + 1) && data == EncodeAll(items) + r.rest &&
              r.value == done + ValuesOf(items)
    decreases |data|, 1
  {
    hide Decode, Legal;
    if n == 0 {
      items := [];
      assert data == [] + data && done == done + [];
    } else {
      var first := Decode(data, depth + 1, guarded).value;
      var r := DecodeItems(data, n, depth, guarded, done).value;
      var item := DecodedWasEncoded(data, depth + 1, guarded);
      var others := ItemsWereEncoded(first.rest, n - 1, depth, guarded, done + [first.value]);
      items := [item] + others;
      hide Encode, DecodeItems;
      assert items[1..] == others;
      assert Encode(item) + (EncodeAll(others) + r.rest) == Encode(item) + EncodeAll(others) + r.rest;
      assert done + [first.value] + ValuesOf(others) == done + ValuesOf(items);
    }
  }

  lemma CellsJoined(key: Item, v: Item, others: seq<Item>, depth: nat, s: seq<byte>)
    requires Legal(key, depth) && Legal(v, depth) && IsKey(key) && AllLegal(others, depth) && KeysAlternate(others)
    ensures var cells := [key, v] + others;
            && AllLegal(cells, depth) && KeysAlternate(cells)
            && EncodeAll(cells) + s == Encode(key) + (Encode(v) + (EncodeAll(others) + s))
            && Name(key).Some?
            && forall done :: EntriesOf(cells, done) == EntriesOf(others, done[Name(key).value := ValueOf(v)])
  {
    hide Encode, Legal, ValueOf;
    KeyOfKey(key);
    var cells := [key, v] + others;
    assert cells[2..] == others && cells[1..] == [v] + others && cells[1..][1..] == others;
    forall i | 0 <= i < |cells| && i % 2 == 0
      ensures IsKey(cells[i])
    {
      assert i >= 2 ==> cells[i] == others[i - 2];
    }
  }

  lemma {:induction false} PairsWereEncoded(data: seq<byte>, n: nat, depth: nat, guarded: bool, done: map<Key, Value>)
    returns (cells: seq<Item>)
    requires DecodePairs(data, n, depth, guarded, done).Ok?
    ensures var r := DecodePairs(data, n, depth, guarded, done).value;
            && |cells| == 2 * n && KeysAlternate(cells) && AllLegal(cells, depth + 1)
            && data == EncodeAll(cells) + r.rest && r.value == EntriesOf(cells, done)
    decreases |data|, 1
  {
    hide Decode, Legal, Encode, ValueOf, KeyOf;
    if n == 0 {
      cells := [];
      assert data == [] + data;
    } else {
      var k := Decode(data, depth + 1, guarded).value;
      var v := Decode(k.rest, depth + 1, guarded).value;
      var r := DecodePairs(data, n, depth, guarded, done).value;
      var key := DecodedWasEncoded(data, depth + 1, guarded);
      var value := DecodedWasEncoded(k.rest, depth + 1, guarded);
      var others := PairsWereEncoded(v.rest, n - 1, depth, guarded, done[KeyOf(k.value).value := v.value]);
      KeyOfKey(key);
      CellsJoined(key, value, others, depth + 1, r.rest);
      cells := [key, value] + others;
      hide EntriesOf, EncodeAll, DecodePairs, AllLegal, KeysAlternate;
    }
  }

  // ---- Cut short ----

  lemma CutHead(item: Item, depth: nat, k: nat)
    requires Legal(item, depth) && 0 < k <= |Encode(item)|
    ensures var head := Head(Major(item), item.ai, Argument(item)); var data := Encode(item)[..k];
      && data[0] / 32 == Major(item) && data[0] % 32 == item.ai
      && (if k < |head| then ReadLen(item.ai, data[1..]) == Err(UnexpectedEOF)
          else ReadLen(item.ai, data[1..]) == Ok(Parsed(Argument(item), Body(item)[..k - |head|])))
  {
    hide ArgumentBytes, Pow256, ReadLen;
    var head, data := Head(Major(item), item.ai, Argument(item)), Encode(item)[..k];
    assert |head| == 1 + ArgumentBytes(item.ai) by {
      if item.ai >= 24 {
        BigEndianOfTo(Argument(item), ArgumentBytes(item.ai));
      } else {
        WidthsAgree(item.ai);
      }
    }
    ArgumentsAreRead(item.ai, data[1..]);
    if k >= |head| {
      assert data == head + Body(item)[..k - |head|];
      ReadLenOfHead(Major(item), item.ai, Argument(item), Body(item)[..k - |head|]);
    }
  }

  /** An encoding that is cut short anywhere is reported as the end of the input, with or without the length guards. */
  lemma {:induction false} CutShortIsEOF(item: Item, depth: nat, guarded: bool, k: nat)
    requires Legal(item, depth) && k < |Encode(item)|
    ensures Decode(Encode(item)[..k], depth, guarded) == Err(UnexpectedEOF)
    decreases item, 1
  {
    hide DecodeItems, DecodePairs, Head, ReadLen, Fits;
    if k > 0 {
      CutHead(item, depth, k);
      var head := Head(Major(item), item.ai, Argument(item));
      if k >= |head| {
        CutBodyIsEOF(item, depth, guarded, k - |head|);
      }
    }
  }

  lemma {:induction false} CutBodyIsEOF(item: Item, depth: nat, guarded: bool, k: nat)
    requires Legal(item, depth) && k < |Body(item)|
    ensures DecodeBody(Major(item), Argument(item), Body(item)[..k], depth, guarded) == Err(UnexpectedEOF)
    decreases item, 0
  {
    hide DecodeItems, DecodePairs, Fits;
    match item
    case List(_, items) => CutItemsAreEOF(items, depth, guarded, [], k);
    case Table(_, cells) => CutPairsAreEOF(cells, depth, guarded, map[], k);
    case _ =>
  }

  lemma {:induction false} CutItemsAreEOF(items: seq<Item>, depth: nat, guarded: bool, done: seq<Value>, k: nat)
    requires AllLegal(items, depth + 1) && k < |EncodeAll(items)|
    ensures DecodeItems(EncodeAll(items)[..k], |items|, depth, guarded, done) == Err(UnexpectedEOF)
    decreases items, 2
  {
    hide Encode, Decode, Legal, ValueOf;
    var first, others := Encode(items[0]), EncodeAll(items[1..]);
    if k < |first| {
      CutShortIsEOF(items[0], depth + 1, guarded, k);
      assert EncodeAll(items)[..k] == first[..k];
    } else {
      assert EncodeAll(items)[..k] == first + others[..k - |first|];
      DecodeInvertsEncode(items[0], depth + 1, guarded, others[..k - |first|]);
      CutItemsAreEOF(items[1..], depth, guarded, done + [ValueOf(items[0])], k - |first|);
    }
  }

  lemma {:induction false} CutPairsAreEOF(cells: seq<Item>, depth: nat, guarded: bool, done: map<Key, Value>, k: nat)
    requires AllLegal(cells, depth + 1) && KeysAlternate(cells) && k < |EncodeAll(cells)|
    ensures DecodePairs(EncodeAll(cells)[..k], |cells| / 2, depth, guarded, done) == Err(UnexpectedEOF)
    decreases cells, 2
  {
    hide Encode, Decode, Legal, ValueOf, KeyOf, Name, KeysAlternate, EncodeAll;
    assert cells != [] by { NothingIsEmpty(cells); }
    TwoOrMore(cells);
    CellsInTwos(cells, depth + 1, []);
    var key, v, others := Encode(cells[0]), Encode(cells[1]), EncodeAll(cells[2..]);
    var data := EncodeAll(cells)[..k];
    assert EncodeAll(cells) == key + (v + others) by {
      assert EncodeAll(cells) + [] == EncodeAll(cells) && others + [] == others;
    }
    if k < |key| {
      CutShortIsEOF(cells[0], depth + 1, guarded, k);
      assert data == key[..k];
    } else if k < |key| + |v| {
      assert data == key + v[..k - |key|];
      DecodeInvertsEncode(cells[0], depth + 1, guarded, v[..k - |key|]);
      CutShortIsEOF(cells[1], depth + 1, guarded, k - |key|);
    } else {
      var rest := others[..k - |key| - |v|];
      assert data == key + (v + rest);
      DecodeInvertsEncode(cells[0], depth + 1, guarded, v + rest);
      DecodeInvertsEncode(cells[1], depth + 1, guarded, rest);
      PairStep(data, ValueOf(cells[0]), v + rest, ValueOf(cells[1]), rest, |cells| / 2, depth, guarded, done);
      CutPairsAreEOF(cells[2..], depth, guarded, done[KeyOf(ValueOf(cells[0])).value := ValueOf(cells[1])],
                     k - |key| - |v|);
    }
  }

  lemma NothingIsEmpty(items: seq<Item>)
    ensures items == [] ==> EncodeAll(items) == []
  {
  }

  // ---- Consequences ----

  /** The decoder is local: it consumes a non-empty prefix, and that prefix means the same whatever follows it. */
  lemma DecoderIsLocal(data: seq<byte>, depth: nat, guarded: bool, s: seq<byte>)
    requires Decode(data, depth, guarded).Ok?
    ensures var r := Decode(data, depth, guarded).value;
            && |r.rest| < |data| && data == data[..|data| - |r.rest|] + r.rest
            && Decode(data[..|data| - |r.rest|] + s, depth, guarded) == Ok(Parsed(r.value, s))
  {
    var item := DecodedWasEncoded(data, depth, guarded);
    hide Decode, Encode, ValueOf, Legal;
    var r := Decode(data, depth, guarded).value;
    assert data[..|data| - |r.rest|] == Encode(item);
    DecodeInvertsEncode(item, depth, guarded, s);
  }

  /** The length guards change nothing: without them the same inputs are accepted, with the same results. */
  lemma GuardsAreRedundant(data: seq<byte>, depth: nat)
    ensures Decode(data, depth, true).Ok? <==> Decode(data, depth, false).Ok?
    ensures Decode(data, depth, true).Ok? ==> Decode(data, depth, true) == Decode(data, depth, false)
  {
    hide Decode, Encode, ValueOf, Legal;
    if Decode(data, depth, true).Ok? {
      var item := DecodedWasEncoded(data, depth, true);
      DecodeInvertsEncode(item, depth, false, Decode(data, depth, true).value.rest);
    } else if Decode(data, depth, false).Ok? {
      var item := DecodedWasEncoded(data, depth, false);
      DecodeInvertsEncode(item, depth, true, Decode(data, depth, false).value.rest);
    }
  }

  /** Encodings are prefix-free. */
  lemma EncodingsArePrefixFree(a: Item, b: Item, depth: nat)
    requires Legal(a, depth) && Legal(b, depth) && Encode(a) <= Encode(b)
    ensures Encode(a) == Encode(b)
  {
    hide Decode, Encode, ValueOf, Legal;
    var more := Encode(b)[|Encode(a)|..];
    assert Encode(b) == Encode(a) + more && Encode(b) + [] == Encode(b);
    DecodeInvertsEncode(a, depth, true, more);
    DecodeInvertsEncode(b, depth, true, []);
    assert more == [];
  }
}
