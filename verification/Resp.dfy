/**
 * The RESP2/RESP3 frame reader of the reply-loss proxy: one flat loop with a counter of values still to come.
 * Byte strings are strings of characters below 256.
 */
module Resp {
  import opened Wrappers
  import opened Text
  import opened Slices

  const MAX_COUNT := 16 * 1024 * 1024

  datatype Fault = UnexpectedEof | InvalidData

  // ----- the reader -----

  /** The end of the line that starts here, newline included, or the end of input. */
  function LineEnd(input: string, pos: nat): (end: nat)
    requires pos <= |input|
    ensures pos <= end <= |input| && (pos < |input| ==> pos < end)
    decreases |input| - pos
  {
    if pos == |input| then pos else if input[pos] == '\n' then pos + 1 else LineEnd(input, pos + 1)
  }

  predicate IsBulk(kind: char) { kind == '$' || kind == '=' || kind == '!' }
  predicate IsDouble(kind: char) { kind == '%' || kind == '|' }
  predicate IsAggregate(kind: char) { kind == '*' || kind == '~' || kind == '>' || IsDouble(kind) }

  /** What one line, with the payload it announces, takes: where it ends and how many values it promises. */
  datatype Unit = Unit(end: nat, children: nat)

  function ReadUnit(input: string, pos: nat): (r: Result<Unit, Fault>)
    requires pos <= |input|
    ensures r.Success? ==> pos < r.value.end <= |input|
  {
    var end := LineEnd(input, pos);
    if end == pos then Failure(UnexpectedEof)
    else
      var line := input[pos..end];
      if |line| < 3 || line[|line| - 1] != '\n' || line[|line| - 2] != '\r' then Failure(InvalidData)
      else if !IsBulk(line[0]) && !IsAggregate(line[0]) then Success(Unit(end, 0))
      else
        var count := ParseI64(line[1..|line| - 2]);
        if count.None? then Failure(InvalidData)
        else if count.value < 0 then Success(Unit(end, 0))
        else if count.value > MAX_COUNT then Failure(InvalidData)
        else if IsAggregate(line[0]) then Success(Unit(end, count.value * if IsDouble(line[0]) then 2 else 1))
        else if end + count.value + 2 > |input| then Failure(UnexpectedEof)
        else Success(Unit(end + count.value + 2, 0))
  }

  /** The position at which a counter of values still to come runs out. */
  function Frame(input: string, pos: nat, remaining: nat): (r: Result<nat, Fault>)
    requires pos <= |input|
    ensures r.Success? ==> pos <= r.value <= |input|
    decreases |input| - pos
  {
    if remaining == 0 then Success(pos)
    else
      var unit := ReadUnit(input, pos);
      if unit.Failure? then Failure(unit.error) else Frame(input, unit.value.end, remaining - 1 + unit.value.children)
  }

  /** One frame: the bytes up to where the counter runs out. */
  function FrameText(input: string, start: nat): Result<string, Fault>
    requires start <= |input|
  {
    var end := Frame(input, start, 1);
    if end.Success? then Success(input[start..end.value]) else Failure(end.error)
  }

  /** The loop as it is written: grow the bytes read so far, and update the counter. */
  method ReadFrame(input: string, start: nat) returns (r: Result<string, Fault>)
    requires start <= |input|
    ensures r == FrameText(input, start)
  {
    hide ReadUnit;
    var bytes := "";
    var remaining: nat := 1;
    while remaining > 0
      invariant start + |bytes| <= |input| && bytes == input[start..start + |bytes|]
      invariant Frame(input, start, 1) == Frame(input, start + |bytes|, remaining)
      decreases |input| - start - |bytes|, remaining
    {
      var offset := start + |bytes|;
      var unit := ReadUnit(input, offset);
      if unit.Failure? { return Failure(unit.error); }
      FrameUnit(input, offset, remaining, unit.value);
      remaining := remaining - 1 + unit.value.children;
      bytes := bytes + input[offset..unit.value.end];
      assert bytes == input[start..unit.value.end];
    }
    assert Frame(input, start + |bytes|, 0) == Success(start + |bytes|);
    return Success(bytes);
  }

  // ----- values -----

  /** A map's items are its keys and values in turn; an attribute's likewise, followed by the value it describes. */
  datatype Value =
    | Line(kind: char, text: string)
    | Bulk(kind: char, payload: string)
    | Null(kind: char)
    | Aggregate(kind: char, items: seq<Value>)
    | Map(items: seq<Value>)
    | Attribute(items: seq<Value>, value: Value)

  function Head(kind: char, count: nat): string { [kind] + Decimal(count) + "\r\n" }

  function Serialize(v: Value): string
    decreases v, 0
  {
    match v
    case Line(kind, text) => [kind] + text + "\r\n"
    case Bulk(kind, payload) => Head(kind, |payload|) + (payload + "\r\n")
    case Null(kind) => [kind] + "-1" + "\r\n"
    case Aggregate(kind, items) => Head(kind, |items|) + SerializeAll(items)
    case Map(items) => Head('%', |items| / 2) + SerializeAll(items)
    case Attribute(items, value) => Head('|', |items| / 2) + (SerializeAll(items) + Serialize(value))
  }

  function SerializeAll(items: seq<Value>): string
    decreases items, 0
  {
    if items == [] then "" else Serialize(items[0]) + SerializeAll(items[1..])
  }

  /** A value Redis can send within the reader's size limit. */
  predicate WellFormed(v: Value)
    decreases v, 0
  {
    match v
    case Line(kind, text) => !IsBulk(kind) && !IsAggregate(kind) && kind != '\n' && '\n' !in text
    case Bulk(kind, payload) => IsBulk(kind) && |payload| <= MAX_COUNT
    case Null(kind) => IsBulk(kind) || kind == '*'
    case Aggregate(kind, items) => IsAggregate(kind) && !IsDouble(kind) && |items| <= MAX_COUNT && AllWellFormed(items)
    case Map(items) => |items| % 2 == 0 && |items| / 2 <= MAX_COUNT && AllWellFormed(items)
    case Attribute(items, value) =>
      |items| % 2 == 0 && |items| / 2 <= MAX_COUNT && AllWellFormed(items) && WellFormed(value)
  }

  predicate AllWellFormed(items: seq<Value>)
    decreases items, 0
  {
    items != [] ==> WellFormed(items[0]) && AllWellFormed(items[1..])
  }

  /** How many attribute prefixes a value carries, at any depth. */
  function Attributes(v: Value): nat
    decreases v, 0
  {
    match v
    case Aggregate(_, items) => AttributesAll(items)
    case Map(items) => AttributesAll(items)
    case Attribute(items, value) => 1 + AttributesAll(items) + Attributes(value)
    case _ => 0
  }

  function AttributesAll(items: seq<Value>): nat
    decreases items, 0
  {
    if items == [] then 0 else Attributes(items[0]) + AttributesAll(items[1..])
  }

  // ----- reading what was serialised -----

  lemma {:induction false} LineEndAt(input: string, pos: nat, body: string)
    requires At(input, pos, body + "\n") && '\n' !in body
    ensures LineEnd(input, pos) == pos + |body| + 1
    decreases |body|
  {
    var all := body + "\n";
    assert input[pos] == input[pos..pos + |all|][0] == all[0];
    if body != "" {
      assert body[0] in body;
      assert all == [body[0]] + (body[1..] + "\n");
      AtSplit(input, pos, [body[0]], body[1..] + "\n");
      LineEndAt(input, pos + 1, body[1..]);
    }
  }

  /** A line that was written is the line that is read. */
  lemma LineAt(input: string, pos: nat, kind: char, text: string)
    requires At(input, pos, [kind] + text + "\r\n") && kind != '\n' && '\n' !in text
    ensures LineEnd(input, pos) == pos + |text| + 3 && input[pos..LineEnd(input, pos)] == [kind] + text + "\r\n"
  {
    var body := [kind] + text + "\r";
    assert [kind] + text + "\r\n" == body + "\n";
    LineEndAt(input, pos, body);
  }

  lemma NumberLine(n: nat)
    requires n <= MAX_COUNT
    ensures '\n' !in Decimal(n) && ParseI64(Decimal(n)) == Some(n)
  {
    DecimalParses(n);
    ParseDecimalI64(n);
    forall i | 0 <= i < |Decimal(n)| ensures Decimal(n)[i] != '\n' { assert IsDigit(Decimal(n)[i]); }
  }

  /** The line of an aggregate promises its elements. */
  lemma AggregateHead(input: string, pos: nat, kind: char, count: nat)
    requires At(input, pos, Head(kind, count)) && IsAggregate(kind) && count <= MAX_COUNT
    ensures ReadUnit(input, pos) == Success(Unit(pos + |Head(kind, count)|, count * if IsDouble(kind) then 2 else 1))
  {
    hide LineEnd, ParseI64, Decimal;
    NumberLine(count);
    LineAt(input, pos, kind, Decimal(count));
    var line := Head(kind, count);
    assert line[1..|line| - 2] == Decimal(count);
  }

  lemma BulkUnit(input: string, pos: nat, kind: char, payload: string)
    requires At(input, pos, Serialize(Bulk(kind, payload))) && IsBulk(kind) && |payload| <= MAX_COUNT
    ensures ReadUnit(input, pos) == Success(Unit(pos + |Serialize(Bulk(kind, payload))|, 0))
  {
    AtSplit(input, pos, Head(kind, |payload|), payload + "\r\n");
    NumberLine(|payload|);
    LineAt(input, pos, kind, Decimal(|payload|));
    var line := Head(kind, |payload|);
    assert line[1..|line| - 2] == Decimal(|payload|);
  }

  lemma PlainUnit(input: string, pos: nat, kind: char, text: string)
    requires At(input, pos, [kind] + text + "\r\n") && kind != '\n' && '\n' !in text
    requires (!IsBulk(kind) && !IsAggregate(kind)) || text == "-1"
    ensures ReadUnit(input, pos) == Success(Unit(pos + |text| + 3, 0))
  {
    LineAt(input, pos, kind, text);
    var line := [kind] + text + "\r\n";
    assert line[1..|line| - 2] == text;
    if text == "-1" {
      assert text[1..] == "1" && Text.Value("1") == 10 * Text.Value("1"[..0]) + 1;
    }
  }

  lemma FrameUnit(input: string, pos: nat, remaining: nat, unit: Unit)
    requires pos <= |input| && remaining > 0 && ReadUnit(input, pos) == Success(unit)
    ensures Frame(input, pos, remaining) == Frame(input, unit.end, remaining - 1 + unit.children)
  {}

  lemma SerializeNonempty(v: Value)
    ensures |Serialize(v)| > 0
  {}

  /** With enough counted values to come, the reader passes over a value and over nothing else. */
  lemma {:induction false} FramePasses(input: string, pos: nat, v: Value, remaining: nat)
    requires WellFormed(v) && At(input, pos, Serialize(v)) && 1 + Attributes(v) <= remaining
    ensures Frame(input, pos, remaining) == Frame(input, pos + |Serialize(v)|, remaining - 1 - Attributes(v))
    decreases v, 1
  {
    hide Frame, ReadUnit, At, Head, SerializeAll, AttributesAll, AllWellFormed;
    match v
    case Line(kind, text) =>
      PlainUnit(input, pos, kind, text);
      FrameUnit(input, pos, remaining, Unit(pos + |Serialize(v)|, 0));
    case Bulk(kind, payload) =>
      BulkUnit(input, pos, kind, payload);
      FrameUnit(input, pos, remaining, Unit(pos + |Serialize(v)|, 0));
    case Null(kind) =>
      PlainUnit(input, pos, kind, "-1");
      FrameUnit(input, pos, remaining, Unit(pos + |Serialize(v)|, 0));
    case Aggregate(kind, items) =>
      AtSplit(input, pos, Head(kind, |items|), SerializeAll(items));
      ItemsPass(input, pos, kind, |items|, items, remaining);
    case Map(items) =>
      AtSplit(input, pos, Head('%', |items| / 2), SerializeAll(items));
      ItemsPass(input, pos, '%', |items| / 2, items, remaining);
    case Attribute(items, value) =>
      var start := pos + |Head('|', |items| / 2)|;
      AtSplit(input, pos, Head('|', |items| / 2), SerializeAll(items) + Serialize(value));
      AtSplit(input, start, SerializeAll(items), Serialize(value));
      ItemsPass(input, pos, '|', |items| / 2, items, remaining);
      FramePasses(input, start + |SerializeAll(items)|, value, remaining - 1 - AttributesAll(items));
  }

  /** A counted line and the values it counts. */
  lemma ItemsPass(input: string, pos: nat, kind: char, count: nat, items: seq<Value>, remaining: nat)
    requires IsAggregate(kind) && count <= MAX_COUNT && (if IsDouble(kind) then 2 * count else count) == |items|
    requires At(input, pos, Head(kind, count)) && At(input, pos + |Head(kind, count)|, SerializeAll(items))
    requires AllWellFormed(items) && 1 + AttributesAll(items) <= remaining
    ensures pos + |Head(kind, count)| + |SerializeAll(items)| <= |input|
    ensures Frame(input, pos, remaining) ==
            Frame(input, pos + |Head(kind, count)| + |SerializeAll(items)|, remaining - 1 - AttributesAll(items))
    decreases items, 2
  {
    hide Frame, ReadUnit, Head, SerializeAll, AttributesAll, AllWellFormed;
    AggregateHead(input, pos, kind, count);
    FrameUnit(input, pos, remaining, Unit(pos + |Head(kind, count)|, |items|));
    FramePassesAll(input, pos + |Head(kind, count)|, items, remaining - 1 + |items|);
  }

  lemma {:induction false} FramePassesAll(input: string, pos: nat, items: seq<Value>, remaining: nat)
    requires AllWellFormed(items) && At(input, pos, SerializeAll(items)) && |items| + AttributesAll(items) <= remaining
    ensures pos + |SerializeAll(items)| <= |input|
    ensures Frame(input, pos, remaining) ==
              Frame(input, pos + |SerializeAll(items)|, remaining - |items| - AttributesAll(items))
    decreases items, 0
  {
    hide Frame, Serialize, WellFormed, Attributes;
    if items != [] {
      AtSplit(input, pos, Serialize(items[0]), SerializeAll(items[1..]));
      hide At;
      FramePasses(input, pos, items[0], remaining);
      FramePassesAll(input, pos + |Serialize(items[0])|, items[1..], remaining - 1 - Attributes(items[0]));
    }
  }

  /** With fewer, the counter runs out inside the value and the reader stops short of its end. */
  lemma {:induction false} FrameStopsShort(input: string, pos: nat, v: Value, remaining: nat)
    requires WellFormed(v) && At(input, pos, Serialize(v)) && 1 <= remaining < 1 + Attributes(v)
    ensures Frame(input, pos, remaining).Success? && Frame(input, pos, remaining).value < pos + |Serialize(v)|
    decreases v, 1
  {
    hide Frame, ReadUnit, At, Head, SerializeAll, AttributesAll, AllWellFormed;
    match v
    case Aggregate(kind, items) =>
      AtSplit(input, pos, Head(kind, |items|), SerializeAll(items));
      ItemsStopShort(input, pos, kind, |items|, items, remaining);
    case Map(items) =>
      AtSplit(input, pos, Head('%', |items| / 2), SerializeAll(items));
      ItemsStopShort(input, pos, '%', |items| / 2, items, remaining);
    case Attribute(items, value) =>
      var start := pos + |Head('|', |items| / 2)|;
      AtSplit(input, pos, Head('|', |items| / 2), SerializeAll(items) + Serialize(value));
      AtSplit(input, start, SerializeAll(items), Serialize(value));
      SerializeNonempty(value);
      if remaining < 1 + AttributesAll(items) {
        ItemsStopShort(input, pos, '|', |items| / 2, items, remaining);
      } else {
        ItemsPass(input, pos, '|', |items| / 2, items, remaining);
        var left := remaining - 1 - AttributesAll(items);
        if left == 0 { FrameDone(input, start + |SerializeAll(items)|); }
        else { FrameStopsShort(input, start + |SerializeAll(items)|, value, left); }
      }
  }

  lemma FrameDone(input: string, pos: nat)
    requires pos <= |input|
    ensures Frame(input, pos, 0) == Success(pos)
  {}

  lemma ItemsStopShort(input: string, pos: nat, kind: char, count: nat, items: seq<Value>, remaining: nat)
    requires IsAggregate(kind) && count <= MAX_COUNT && (if IsDouble(kind) then 2 * count else count) == |items|
    requires At(input, pos, Head(kind, count)) && At(input, pos + |Head(kind, count)|, SerializeAll(items))
    requires AllWellFormed(items) && 1 <= remaining < 1 + AttributesAll(items)
    ensures Frame(input, pos, remaining).Success?
            && Frame(input, pos, remaining).value < pos + |Head(kind, count)| + |SerializeAll(items)|
    decreases items, 2
  {
    hide Frame, ReadUnit, Head, SerializeAll, AttributesAll, AllWellFormed;
    AggregateHead(input, pos, kind, count);
    FrameUnit(input, pos, remaining, Unit(pos + |Head(kind, count)|, |items|));
    AllStopShort(input, pos + |Head(kind, count)|, items, remaining - 1 + |items|);
  }

  lemma {:induction false} AllStopShort(input: string, pos: nat, items: seq<Value>, remaining: nat)
    requires AllWellFormed(items) && At(input, pos, SerializeAll(items)) && remaining < |items| + AttributesAll(items)
    ensures Frame(input, pos, remaining).Success? && Frame(input, pos, remaining).value < pos + |SerializeAll(items)|
    decreases items, 0
  {
    hide Frame, Serialize, WellFormed, Attributes;
    AtSplit(input, pos, Serialize(items[0]), SerializeAll(items[1..]));
    SerializeNonempty(items[0]);
    hide At;
    if remaining == 0 {
      FrameDone(input, pos);
    } else if remaining < 1 + Attributes(items[0]) {
      FrameStopsShort(input, pos, items[0], remaining);
    } else {
      FramePasses(input, pos, items[0], remaining);
      AllStopShort(input, pos + |Serialize(items[0])|, items[1..], remaining - 1 - Attributes(items[0]));
    }
  }

  /**
   * Whatever follows, the reader returns exactly a value's serialisation, if and only if the value carries no
   * attribute prefix; otherwise it stops inside it.
   */
  lemma FrameIsOneValue(v: Value, rest: string)
    requires WellFormed(v)
    ensures Frame(Serialize(v) + rest, 0, 1) == Success(|Serialize(v)|) <==> Attributes(v) == 0
    ensures Frame(Serialize(v) + rest, 0, 1).Success? && Frame(Serialize(v) + rest, 0, 1).value <= |Serialize(v)|
  {
    var input := Serialize(v) + rest;
    assert At(input, 0, Serialize(v));
    hide Frame, Serialize;
    if Attributes(v) == 0 {
      FramePasses(input, 0, v, 1);
      FrameDone(input, |Serialize(v)|);
    } else {
      FrameStopsShort(input, 0, v, 1);
    }
  }
}
