/** The CBOR decoder for attestation objects and COSE keys (cbor.go): definite-length integers, byte and text strings,
    arrays and maps, as in section 3 of RFC 8949. */
module Cbor {
  import opened Entities
  import opened Bytes

  // Text is kept as its bytes, as a Go string does
  datatype Key = IntKey(i: int) | TextKey(s: seq<byte>)

  datatype Value =
    | Int(i: int)
    | ByteString(bytes: seq<byte>)
    | Text(s: seq<byte>)
    | Array(items: seq<Value>)
    | Map(entries: map<Key, Value>)

  datatype Error = TooDeep | UnexpectedEOF | IntegerTooLarge | UnsupportedKey | UnsupportedMajor | UnsupportedLength

  datatype Parsed<+T> = Parsed(value: T, rest: seq<byte>)

  const MAX_DEPTH: int := 32
  const MAX_INT64: int := 0x7fff_ffff_ffff_ffff

  // cborReadLen
  function ReadLen(ai: int, data: seq<byte>): Result<Parsed<nat>, Error> {
    if 0 <= ai < 24 then Ok(Parsed(ai, data))
    else if 24 <= ai < 28 then
      var width := Width(ai);
      if |data| < width then Err(UnexpectedEOF) else Ok(Parsed(BigEndian(data[..width]), data[width..]))
    else Err(UnsupportedLength)
  }

  // How many argument bytes follow a head with this additional information
  function Width(ai: int): nat {
    if ai == 24 then 1 else if ai == 25 then 2 else if ai == 26 then 4 else if ai == 27 then 8 else 0
  }

  /** parseCBORDepth; guarded says whether declared array and map lengths are checked against the input first. */
  function Decode(data: seq<byte>, depth: nat, guarded: bool): (r: Result<Parsed<Value>, Error>)
    ensures r.Ok? ==> |r.value.rest| < |data|
    decreases |data|, 0
  {
    if depth > MAX_DEPTH then Err(TooDeep)
    else if data == [] then Err(UnexpectedEOF)
    else
      match ReadLen(data[0] % 32, data[1..])
      case Err(e) => Err(e)
      case Ok(Parsed(n, rest)) => DecodeBody(data[0] / 32, n, rest, depth, guarded)
  }

  // What follows a head with this major type and argument
  function DecodeBody(major: nat, n: nat, rest: seq<byte>, depth: nat, guarded: bool): (r: Result<Parsed<Value>, Error>)
    ensures r.Ok? ==> |r.value.rest| <= |rest|
    decreases |rest|, 2
  {
    match major
    case 0 => if n > MAX_INT64 then Err(IntegerTooLarge) else Ok(Parsed(Int(n), rest))
    case 1 => if n > MAX_INT64 then Err(IntegerTooLarge) else Ok(Parsed(Int(-1 - n), rest))
    case 2 => if |rest| < n then Err(UnexpectedEOF) else Ok(Parsed(ByteString(rest[..n]), rest[n..]))
    case 3 => if |rest| < n then Err(UnexpectedEOF) else Ok(Parsed(Text(rest[..n]), rest[n..]))
    case 4 =>
      if guarded && n > |rest| then Err(UnexpectedEOF)
      else (match DecodeItems(rest, n, depth, guarded, [])
            case Err(e) => Err(e)
            case Ok(Parsed(items, tail)) => Ok(Parsed(Array(items), tail)))
    case 5 =>
      if guarded && n > |rest| / 2 then Err(UnexpectedEOF)
      else (match DecodePairs(rest, n, depth, guarded, map[])
            case Err(e) => Err(e)
            case Ok(Parsed(entries, tail)) => Ok(Parsed(Map(entries), tail)))
    case _ => Err(UnsupportedMajor)
  }

  // The element loop: n more items, after those in done
  function DecodeItems(data: seq<byte>, n: nat, depth: nat, guarded: bool,
                       done: seq<Value>): (r: Result<Parsed<seq<Value>>, Error>)
    ensures r.Ok? ==> |r.value.rest| + n <= |data|
    decreases |data|, 1
  {
    if n == 0 then Ok(Parsed(done, data))
    else match Decode(data, depth + 1, guarded)
         case Err(e) => Err(e)
         case Ok(Parsed(v, rest)) => DecodeItems(rest, n - 1, depth, guarded, done + [v])
  }

  function KeyOf(v: Value): Option<Key> {
    match v
    case Int(i) => Some(IntKey(i))
    case Text(s) => Some(TextKey(s))
    case _ => None
  }

  // The entry loop: n more pairs, after those in done; a repeated key overwrites
  function DecodePairs(data: seq<byte>, n: nat, depth: nat, guarded: bool,
                       done: map<Key, Value>): (r: Result<Parsed<map<Key, Value>>, Error>)
    ensures r.Ok? ==> |r.value.rest| + 2 * n <= |data|
    decreases |data|, 1
  {
    if n == 0 then Ok(Parsed(done, data))
    else match Decode(data, depth + 1, guarded)
         case Err(e) => Err(e)
         case Ok(Parsed(k, afterKey)) =>
           match Decode(afterKey, depth + 1, guarded)
           case Err(e) => Err(e)
           case Ok(Parsed(v, rest)) =>
             match KeyOf(k)
             case None => Err(UnsupportedKey)
             case Some(key) => DecodePairs(rest, n - 1, depth, guarded, done[key := v])
  }

  /** parseCBORDepth */
  method ParseCBORDepth(data: seq<byte>, depth: nat) returns (r: Result<Parsed<Value>, Error>)
    ensures r == Decode(data, depth, true)
    decreases |data|, 0
  {
    if depth > MAX_DEPTH {
      return Err(TooDeep);
    }
    if data == [] {
      return Err(UnexpectedEOF);
    }
    var major, ai := data[0] / 32, data[0] % 32;
    var head := ReadLen(ai, data[1..]);
    if head.Err? {
      return Err(head.error);
    }
    var n, rest := head.value.value, head.value.rest;
    match major
    case 0 => r := if n > MAX_INT64 then Err(IntegerTooLarge) else Ok(Parsed(Int(n), rest));
    case 1 => r := if n > MAX_INT64 then Err(IntegerTooLarge) else Ok(Parsed(Int(-1 - n), rest));
    case 2 => r := if |rest| < n then Err(UnexpectedEOF) else Ok(Parsed(ByteString(rest[..n]), rest[n..]));
    case 3 => r := if |rest| < n then Err(UnexpectedEOF) else Ok(Parsed(Text(rest[..n]), rest[n..]));
    case 4 =>
      if n > |rest| {
        return Err(UnexpectedEOF);
      }
      var items := ParseItems(rest, n, depth);
      r := if items.Err? then Err(items.error) else Ok(Parsed(Array(items.value.value), items.value.rest));
    case 5 =>
      if n > |rest| / 2 {
        return Err(UnexpectedEOF);
      }
      var entries := ParsePairs(rest, n, depth);
      r := if entries.Err? then Err(entries.error) else Ok(Parsed(Map(entries.value.value), entries.value.rest));
    case _ => r := Err(UnsupportedMajor);
  }

  // The element loop of parseCBORDepth
  method ParseItems(rest: seq<byte>, n: nat, depth: nat) returns (r: Result<Parsed<seq<Value>>, Error>)
    ensures r == DecodeItems(rest, n, depth, true, [])
    decreases |rest|, 1
  {
    var arr: seq<Value> := [];
    var cur := rest;
    for i := 0 to n
      invariant |cur| <= |rest|
      invariant DecodeItems(rest, n, depth, true, []) == DecodeItems(cur, n - i, depth, true, arr)
    {
      var item := ParseCBORDepth(cur, depth + 1);
      if item.Err? {
        return Err(item.error);
      }
      arr := arr + [item.value.value];
      cur := item.value.rest;
    }
    r := Ok(Parsed(arr, cur));
  }

  // The entry loop of parseCBORDepth
  method ParsePairs(rest: seq<byte>, n: nat, depth: nat) returns (r: Result<Parsed<map<Key, Value>>, Error>)
    ensures r == DecodePairs(rest, n, depth, true, map[])
    decreases |rest|, 1
  {
    var m: map<Key, Value> := map[];
    var cur := rest;
    for i := 0 to n
      invariant |cur| <= |rest|
      invariant DecodePairs(rest, n, depth, true, map[]) == DecodePairs(cur, n - i, depth, true, m)
    {
      var k := ParseCBORDepth(cur, depth + 1);
      if k.Err? {
        return Err(k.error);
      }
      var v := ParseCBORDepth(k.value.rest, depth + 1);
      if v.Err? {
        return Err(v.error);
      }
      cur := v.value.rest;
      match k.value.value
      case Int(i) => m := m[IntKey(i) := v.value.value];
      case Text(s) => m := m[TextKey(s) := v.value.value];
      case _ => return Err(UnsupportedKey);
    }
    r := Ok(Parsed(m, cur));
  }
}
