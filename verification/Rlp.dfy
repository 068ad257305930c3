/**
 * Recursive Length Prefix, as Appendix B of the Ethereum Yellow Paper defines it: the campaign's encoder and
 * the testnet guard's bounded decoder.
 */
module Rlp {
  import opened Wrappers
  import opened Slices

  type byte = b: int | 0 <= b < 256

  /** What the encoder takes: byte strings, integers written as minimal big-endian byte strings, and lists. */
  datatype Value = Bytes(bytes: seq<byte>) | Int(number: nat) | List(items: seq<Value>)

  /** What the decoder returns. */
  datatype Item = Leaf(bytes: seq<byte>) | Node(items: seq<Item>)

  const MAX_DEPTH := 8

  // ----- big-endian numbers -----

  function BigEndian(n: nat): seq<byte> { if n == 0 then [] else BigEndian(n / 256) + [n % 256] }

  function FromBigEndian(bs: seq<byte>): nat {
    if bs == [] then 0 else 256 * FromBigEndian(bs[..|bs| - 1]) + bs[|bs| - 1]
  }

  function Power256(k: nat): nat { if k == 0 then 1 else 256 * Power256(k - 1) }

  lemma {:induction false} BigEndianRoundTrip(n: nat)
    ensures FromBigEndian(BigEndian(n)) == n
  {
    if n > 0 {
      BigEndianRoundTrip(n / 256);
      assert BigEndian(n)[..|BigEndian(n)| - 1] == BigEndian(n / 256);
    }
  }

  lemma {:induction false} BigEndianWidth(n: nat, k: nat)
    requires n < Power256(k)
    ensures |BigEndian(n)| <= k
  {
    if n > 0 { BigEndianWidth(n / 256, k - 1); }
  }

  const TWO_64: nat := 0x1_0000_0000_0000_0000

  /** A 64-bit length takes at most eight bytes, and at least one unless it is zero. */
  lemma LengthWidth(n: nat)
    requires n < TWO_64
    ensures |BigEndian(n)| <= 8 && (n > 0 ==> |BigEndian(n)| >= 1)
  {
    assert Power256(8) == TWO_64 by { assert Power256(4) == 0x1_0000_0000; }
    BigEndianWidth(n, 8);
  }

  // ----- encoding -----

  /** The prefix of a body: one byte when short, otherwise the length of the length and the length. */
  function Header(short: byte, len: nat): seq<byte>
    requires short == 0x80 || short == 0xC0
    requires len < TWO_64
  {
    if len < 56 then [short + len]
    else
      LengthWidth(len);
      [short + 55 + |BigEndian(len)|] + BigEndian(len)
  }

  /** The encoding of a value; None where a body's length does not fit 64 bits. */
  function Encode(v: Value): Option<seq<byte>> {
    match v
    case List(items) =>
      var body := EncodeAll(items);
      if body.None? || |body.value| >= TWO_64 then None else Some(Header(0xC0, |body.value|) + body.value)
    case Bytes(bytes) => EncodeBytes(bytes)
    case Int(number) => EncodeBytes(BigEndian(number))
  }

  function EncodeBytes(bytes: seq<byte>): Option<seq<byte>> {
    if |bytes| == 1 && bytes[0] < 128 then Some(bytes)
    else if |bytes| >= TWO_64 then None
    else Some(Header(0x80, |bytes|) + bytes)
  }

  function EncodeAll(items: seq<Value>): Option<seq<byte>> {
    if items == [] then Some([])
    else
      var first, rest := Encode(items[0]), EncodeAll(items[1..]);
      if first.None? || rest.None? then None else Some(first.value + rest.value)
  }

  /** The nested byte strings a value stands for. */
  function Normal(v: Value): Item {
    match v
    case Bytes(bytes) => Leaf(bytes)
    case Int(number) => Leaf(BigEndian(number))
    case List(items) => Node(NormalAll(items))
  }

  function NormalAll(items: seq<Value>): seq<Item> {
    if items == [] then [] else [Normal(items[0])] + NormalAll(items[1..])
  }

  function Depth(v: Value): nat {
    match v
    case List(items) => if items == [] then 0 else 1 + DepthAll(items)
    case _ => 0
  }

  function DepthAll(items: seq<Value>): nat {
    if items == [] then 0
    else var a, b := Depth(items[0]), DepthAll(items[1..]); if a > b then a else b
  }

  // ----- decoding -----

  datatype Span = Span(start: nat, size: nat, isList: bool)

  /** Read a prefix: where the payload starts, how long it is, and whether it is a list. */
  function ReadHeader(data: seq<byte>, offset: nat): Option<Span>
    requires offset < |data| && data[offset] >= 128
  {
    var tag := data[offset];
    if tag <= 183 then Some(Span(offset + 1, tag - 128, false))
    else if tag <= 191 then ReadLength(data, offset + 1, tag - 183, false)
    else if tag <= 247 then Some(Span(offset + 1, tag - 192, true))
    else ReadLength(data, offset + 1, tag - 247, true)
  }

  function ReadLength(data: seq<byte>, from: nat, n: nat, isList: bool): Option<Span> {
    if from + n > |data| then None else Some(Span(from + n, FromBigEndian(data[from..from + n]), isList))
  }

  lemma HeaderStart(data: seq<byte>, offset: nat)
    requires offset < |data| && data[offset] >= 128 && ReadHeader(data, offset).Some?
    ensures offset < ReadHeader(data, offset).value.start
  {}

  /** One item from an offset: its value and where it ends. */
  function DecodeItem(data: seq<byte>, offset: nat, depth: nat, limit: nat): (r: Option<(Item, nat)>)
    ensures r.Some? ==> offset < r.value.1 <= |data|
    decreases if depth > limit then 0 else limit + 1 - depth, 1, 0
  {
    if depth > limit || offset >= |data| then None
    else if data[offset] < 128 then Some((Leaf(data[offset..offset + 1]), offset + 1))
    else
      var span := ReadHeader(data, offset);
      if span.None? || span.value.start + span.value.size > |data| then None
      else
        var start, end := span.value.start, span.value.start + span.value.size;
        HeaderStart(data, offset);
        if !span.value.isList then Some((Leaf(data[start..end]), end))
        else
          var items := DecodeItems(data, start, end, depth, limit);
          if items.None? then None else Some((Node(items.value), end))
  }

  /** The items that fill a list's payload exactly. */
  function DecodeItems(data: seq<byte>, start: nat, end: nat, depth: nat, limit: nat): Option<seq<Item>>
    requires depth <= limit
    decreases limit + 1 - depth, 0, if start < end then end - start else 0
  {
    if start >= end then if start == end then Some([]) else None
    else
      var first := DecodeItem(data, start, depth + 1, limit);
      if first.None? then None
      else
        Prepend([first.value.0], DecodeItems(data, first.value.1, end, depth, limit))
  }

  function Decode(data: seq<byte>, limit: nat): Option<Item> {
    var r := DecodeItem(data, 0, 0, limit);
    if r.Some? && r.value.1 == |data| then Some(r.value.0) else None
  }

  /** The recursive descent as it is written: a list case that loops, appending values and advancing its start. */
  method ReadItem(data: seq<byte>, offset: nat, depth: nat) returns (r: Option<(Item, nat)>)
    ensures r == DecodeItem(data, offset, depth, MAX_DEPTH)
    decreases if depth > MAX_DEPTH then 0 else MAX_DEPTH + 1 - depth
  {
    if depth > MAX_DEPTH || offset >= |data| { return None; }
    if data[offset] < 128 { return Some((Leaf(data[offset..offset + 1]), offset + 1)); }
    var span := ReadHeader(data, offset);
    if span.None? { return None; }
    var start, end := span.value.start, span.value.start + span.value.size;
    if end > |data| { return None; }
    if !span.value.isList { return Some((Leaf(data[start..end]), end)); }
    var values: seq<Item> := [];
    PrependNone(DecodeItems(data, start, end, depth, MAX_DEPTH));
    while start < end
      invariant DecodeItems(data, span.value.start, end, depth, MAX_DEPTH) ==
                  Prepend(values, DecodeItems(data, start, end, depth, MAX_DEPTH))
      decreases end - start
    {
      var item := ReadItem(data, start, depth + 1);
      if item.None? { return None; }
      PrependOne(values, item.value.0, DecodeItems(data, item.value.1, end, depth, MAX_DEPTH));
      values, start := values + [item.value.0], item.value.1;
    }
    if start != end { return None; }
    assert values + [] == values;
    return Some((Node(values), end));
  }

  function Prepend(values: seq<Item>, rest: Option<seq<Item>>): Option<seq<Item>> {
    if rest.None? then None else Some(values + rest.value)
  }

  lemma PrependNone(rest: Option<seq<Item>>)
    ensures Prepend([], rest) == rest
  {
    if rest.Some? { assert [] + rest.value == rest.value; }
  }

  lemma PrependOne(values: seq<Item>, item: Item, rest: Option<seq<Item>>)
    ensures Prepend(values, Prepend([item], rest)) == Prepend(values + [item], rest)
  {
    if rest.Some? { assert values + ([item] + rest.value) == values + [item] + rest.value; }
  }

  method Rlp(data: seq<byte>) returns (r: Option<Item>)
    ensures r == Decode(data, MAX_DEPTH)
  {
    var item := ReadItem(data, 0, 0);
    if item.None? || item.value.1 != |data| { return None; }
    return Some(item.value.0);
  }

  // ----- decoding an encoding -----

  /** Reading a header that was written gives back the payload's place and kind. */
  lemma HeaderRead(data: seq<byte>, offset: nat, short: byte, len: nat)
    requires (short == 0x80 || short == 0xC0) && len < TWO_64 && At(data, offset, Header(short, len))
    ensures offset < |data| && data[offset] >= 128
    ensures ReadHeader(data, offset) == Some(Span(offset + |Header(short, len)|, len, short == 0xC0))
  {
    assert data[offset..offset + |Header(short, len)|][0] == data[offset];
    if len >= 56 {
      LengthWidth(len);
      AtSplit(data, offset, [short + 55 + |BigEndian(len)|], BigEndian(len));
      BigEndianRoundTrip(len);
    }
  }

  lemma BytesRead(data: seq<byte>, offset: nat, bytes: seq<byte>, depth: nat, limit: nat)
    requires EncodeBytes(bytes).Some? && At(data, offset, EncodeBytes(bytes).value) && depth <= limit
    ensures DecodeItem(data, offset, depth, limit) == Some((Leaf(bytes), offset + |EncodeBytes(bytes).value|))
  {
    if |bytes| == 1 && bytes[0] < 128 {
      assert data[offset..offset + 1][0] == data[offset];
    } else {
      AtSplit(data, offset, Header(0x80, |bytes|), bytes);
      HeaderRead(data, offset, 0x80, |bytes|);
    }
  }

  lemma ListHeader(data: seq<byte>, offset: nat, body: seq<byte>)
    requires |body| < TWO_64 && At(data, offset, Header(0xC0, |body|) + body)
    ensures var start := offset + |Header(0xC0, |body|)|;
            && offset < |data| && data[offset] >= 128 && start + |body| <= |data| && At(data, start, body)
            && ReadHeader(data, offset) == Some(Span(start, |body|, true))
  {
    hide ReadHeader;
    AtSplit(data, offset, Header(0xC0, |body|), body);
    HeaderRead(data, offset, 0xC0, |body|);
  }

  /** A list's header hands its payload to the item loop. */
  lemma ListRead(data: seq<byte>, offset: nat, body: seq<byte>, depth: nat, limit: nat)
    requires |body| < TWO_64 && At(data, offset, Header(0xC0, |body|) + body) && depth <= limit
    ensures var start := offset + |Header(0xC0, |body|)|;
            var items := DecodeItems(data, start, start + |body|, depth, limit);
            At(data, start, body)
            && DecodeItem(data, offset, depth, limit) == if items.None? then None
              else Some((Node(items.value), start + |body|))
  {
    hide Header, ReadHeader, At, DecodeItems;
    ListHeader(data, offset, body);
  }

  /** One turn of the item loop. */
  lemma ItemsStep(data: seq<byte>, start: nat, end: nat, depth: nat, limit: nat)
    requires depth <= limit && start < end
    ensures var first := DecodeItem(data, start, depth + 1, limit);
            DecodeItems(data, start, end, depth, limit) ==
            if first.None? then None else Prepend([first.value.0], DecodeItems(data, first.value.1, end, depth, limit))
  {
    hide DecodeItem;
  }

  lemma EncodeNonempty(v: Value)
    requires Encode(v).Some?
    ensures |Encode(v).value| > 0
  {}

  /** Wherever an encoding stands, decoding there returns its value and its end, if and only if the nesting fits. */
  lemma {:induction false} DecodeEncoded(data: seq<byte>, offset: nat, v: Value, depth: nat, limit: nat)
    requires Encode(v).Some? && At(data, offset, Encode(v).value)
    ensures depth + Depth(v) <= limit ==>
              DecodeItem(data, offset, depth, limit) == Some((Normal(v), offset + |Encode(v).value|))
    ensures depth + Depth(v) > limit ==> DecodeItem(data, offset, depth, limit) == None
    decreases v
  {
    hide DecodeItem, DecodeItems, At, Header;
    if depth > limit {
      TooDeep(data, offset, depth, limit);
    } else {
      match v
      case Bytes(bytes) => BytesRead(data, offset, bytes, depth, limit);
      case Int(number) => BytesRead(data, offset, BigEndian(number), depth, limit);
      case List(items) =>
        var body := EncodeAll(items).value;
        ListRead(data, offset, body, depth, limit);
        DecodeAllEncoded(data, offset + |Header(0xC0, |body|)|, items, depth, limit);
    }
  }

  lemma TooDeep(data: seq<byte>, offset: nat, depth: nat, limit: nat)
    requires depth > limit
    ensures DecodeItem(data, offset, depth, limit) == None
  {}

  lemma {:induction false} DecodeAllEncoded(data: seq<byte>, start: nat, items: seq<Value>, depth: nat, limit: nat)
    requires EncodeAll(items).Some? && At(data, start, EncodeAll(items).value) && depth <= limit
    ensures var end := start + |EncodeAll(items).value|;
            DecodeItems(data, start, end, depth, limit) ==
            if items == [] || depth + 1 + DepthAll(items) <= limit then Some(NormalAll(items)) else None
    decreases items
  {
    hide DecodeItem, DecodeItems, Encode, Depth, Normal;
    if items == [] {
      NoItems(data, start, depth, limit);
    } else {
      var first, rest := Encode(items[0]).value, EncodeAll(items[1..]).value;
      EncodeNonempty(items[0]);
      AtSplit(data, start, first, rest);
      hide At;
      ItemsStep(data, start, start + |first + rest|, depth, limit);
      DecodeEncoded(data, start, items[0], depth + 1, limit);
      DecodeAllEncoded(data, start + |first|, items[1..], depth, limit);
    }
  }

  lemma NoItems(data: seq<byte>, start: nat, depth: nat, limit: nat)
    requires depth <= limit
    ensures DecodeItems(data, start, start, depth, limit) == Some([])
  {}

  /** Decoding an encoding gives back the nested value exactly when it nests no deeper than the decoder allows. */
  lemma DecodeInvertsEncode(v: Value, limit: nat)
    requires Encode(v).Some?
    ensures Decode(Encode(v).value, limit) == if Depth(v) <= limit then Some(Normal(v)) else None
  {
    assert At(Encode(v).value, 0, Encode(v).value);
    DecodeEncoded(Encode(v).value, 0, v, 0, limit);
  }

  /** Two values with one encoding are the same nested byte strings. */
  lemma EncodeInjective(v: Value, w: Value)
    requires Encode(v).Some? && Encode(v) == Encode(w)
    ensures Normal(v) == Normal(w)
  {
    var limit := if Depth(v) > Depth(w) then Depth(v) else Depth(w);
    DecodeInvertsEncode(v, limit);
    DecodeInvertsEncode(w, limit);
  }

  /** No encoding is a proper prefix of another. */
  lemma EncodePrefixFree(v: Value, w: Value, rest: seq<byte>)
    requires Encode(v).Some? && Encode(w).Some? && Encode(w).value == Encode(v).value + rest
    ensures rest == [] && Normal(v) == Normal(w)
  {
    var limit := if Depth(v) > Depth(w) then Depth(v) else Depth(w);
    var data := Encode(w).value;
    assert At(data, 0, data);
    assert At(data, 0, Encode(v).value);
    DecodeEncoded(data, 0, v, 0, limit);
    DecodeEncoded(data, 0, w, 0, limit);
  }
}
