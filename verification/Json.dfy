/**
 * JSON values, their canonical text and the digests taken over it.
 * Objects keep their insertion order, so equality of values (`SameValue`) is coarser than equality of
 * representations; `canonical` sorts keys at every level before printing.
 */
module Json {
  import opened Wrappers
  import opened Text

  datatype Json =
    | Null
    | Bool(flag: bool)
    | Num(number: int)
    | Str(text: string)
    | Arr(items: seq<Json>)
    | Obj(fields: seq<Field>)

  datatype Field = Field(key: string, value: Json)

  /** SHA-256 as an ideal digest: two digests are equal exactly when their preimages are. */
  datatype Digest = Sha256(preimage: string)

  const MAX_RECORD_BYTES := 16 * 1024 * 1024

  predicate UniqueKeys(fields: seq<Field>) {
    forall i, j :: 0 <= i < j < |fields| ==> fields[i].key != fields[j].key
  }

  /** Every object, at any depth, has each key once. */
  predicate WellFormed(v: Json) {
    match v
    case Arr(items) => forall i :: 0 <= i < |items| ==> WellFormed(items[i])
    case Obj(fields) => UniqueKeys(fields) && forall i :: 0 <= i < |fields| ==> WellFormed(fields[i].value)
    case _ => true
  }

  function Get(v: Json, key: string): Option<Json> {
    if v.Obj? then Find(v.fields, key) else None
  }

  function Find(fields: seq<Field>, key: string): Option<Json> {
    if fields == [] then None
    else if fields[0].key == key then Some(fields[0].value)
    else Find(fields[1..], key)
  }

  function Without(fields: seq<Field>, key: string): seq<Field> {
    if fields == [] then []
    else if fields[0].key == key then Without(fields[1..], key)
    else [fields[0]] + Without(fields[1..], key)
  }

  /** Equality of JSON values: objects compare as maps from key to value. */
  predicate SameValue(a: Json, b: Json)
    decreases a
  {
    match a
    case Arr(items) =>
      b.Arr? && |items| == |b.items| && forall i :: 0 <= i < |items| ==> SameValue(items[i], b.items[i])
    case Obj(fields) =>
      b.Obj? && |fields| == |b.fields| &&
      forall i :: 0 <= i < |fields| ==> HasField(fields[i], b.fields)
    case _ => a == b
  }

  predicate HasField(f: Field, fields: seq<Field>)
    decreases f
  {
    exists j :: 0 <= j < |fields| && fields[j].key == f.key && SameValue(f.value, fields[j].value)
  }

  // ----- canonical form: keys sorted at every level -----

  /** Byte order on keys. */
  predicate Before(a: string, b: string) {
    if b == "" then false
    else if a == "" then true
    else a[0] < b[0] || (a[0] == b[0] && Before(a[1..], b[1..]))
  }

  function Insert(f: Field, sorted: seq<Field>): seq<Field> {
    if sorted == [] || !Before(sorted[0].key, f.key) then [f] + sorted
    else [sorted[0]] + Insert(f, sorted[1..])
  }

  function Normal(v: Json): Json {
    match v
    case Arr(items) => Arr(NormalItems(items))
    case Obj(fields) => Obj(NormalFields(fields))
    case _ => v
  }

  function NormalItems(items: seq<Json>): seq<Json> {
    if items == [] then [] else [Normal(items[0])] + NormalItems(items[1..])
  }

  function NormalFields(fields: seq<Field>): seq<Field> {
    if fields == [] then []
    else Insert(Field(fields[0].key, Normal(fields[0].value)), NormalFields(fields[1..]))
  }

  // ----- printing -----

  function Escape(c: char): string {
    if c == '"' then ['\\', '"']
    else if c == '\\' then ['\\', '\\']
    else if c == 8 as char then ['\\', 'b']
    else if c == 9 as char then ['\\', 't']
    else if c == 10 as char then ['\\', 'n']
    else if c == 12 as char then ['\\', 'f']
    else if c == 13 as char then ['\\', 'r']
    else if c < 32 as char then ['\\', 'u', '0', '0', Hex(c as int / 16), Hex(c as int % 16)]
    else [c]
  }

  // Each printer takes the text that follows, so that texts are built by consing alone.

  /** The escaped characters, the closing quote, then `rest`. */
  function QuoteTail(s: string, rest: string): string {
    if s == "" then ['"'] + rest else Escape(s[0]) + QuoteTail(s[1..], rest)
  }

  function Quote(s: string, rest: string): string { ['"'] + QuoteTail(s, rest) }

  function PrintInt(n: int, rest: string): string {
    if n < 0 then ['-'] + (Decimal(-n) + rest) else Decimal(n) + rest
  }

  function Print(v: Json, rest: string): string
    decreases v, 1
  {
    match v
    case Null => "null" + rest
    case Bool(flag) => if flag then "true" + rest else "false" + rest
    case Num(n) => PrintInt(n, rest)
    case Str(s) => Quote(s, rest)
    case Arr(items) => ['['] + PrintItems(items, rest)
    case Obj(fields) => ['{'] + PrintFields(fields, rest)
  }

  /** An array's elements, its closing bracket, then `rest`. */
  function PrintItems(items: seq<Json>, rest: string): string
    decreases items, 2
  {
    if items == [] then [']'] + rest else Print(items[0], MoreItems(items[1..], rest))
  }

  /** What follows an element of an array. */
  function MoreItems(items: seq<Json>, rest: string): string
    decreases items, 2
  {
    if items == [] then [']'] + rest else [','] + Print(items[0], MoreItems(items[1..], rest))
  }

  function PrintField(f: Field, rest: string): string
    decreases f, 2
  {
    Quote(f.key, [':'] + Print(f.value, rest))
  }

  /** An object's fields, its closing brace, then `rest`. */
  function PrintFields(fields: seq<Field>, rest: string): string
    decreases fields, 2
  {
    if fields == [] then ['}'] + rest else PrintField(fields[0], MoreFields(fields[1..], rest))
  }

  /** What follows a field of an object. */
  function MoreFields(fields: seq<Field>, rest: string): string
    decreases fields, 2
  {
    if fields == [] then ['}'] + rest else [','] + PrintField(fields[0], MoreFields(fields[1..], rest))
  }

  /** The canonical text of a value, before the size limit. */
  function CanonicalText(v: Json): string { Print(Normal(v), "") }

  predicate Fits(v: Json) { |CanonicalText(v)| <= MAX_RECORD_BYTES }

  /** The digest under which an attempted wire is recorded. */
  function AttemptDigest(attempt: Json): Digest { Sha256(CanonicalText(attempt)) }

  // ----- printing is uniquely decodable -----

  /** Text that may follow a complete value. */
  predicate Closes(rest: string) { rest == "" || rest[0] in {',', ']', '}'} }

  lemma SameTail(x: string, y: string, rx: string, ry: string)
    requires x + rx == y + ry && |x| == |y|
    ensures x == y && rx == ry
  {
    assert x == (x + rx)[..|x|];
    assert y == (y + ry)[..|y|];
    assert rx == (x + rx)[|x|..];
    assert ry == (y + ry)[|y|..];
  }

  lemma Uncons(c: char, d: char, rc: string, rd: string)
    requires [c] + rc == [d] + rd
    ensures c == d && rc == rd
  {
    SameTail([c], [d], rc, rd);
  }

  /** A numeral followed by no digit cannot stop inside another one. */
  lemma NumeralEnds(a: nat, b: nat, ra: string, rb: string)
    requires |Decimal(a)| < |Decimal(b)| && Closes(ra)
    ensures Decimal(a) + ra != Decimal(b) + rb
  {
    DecimalParses(b);
    var x, y := Decimal(a), Decimal(b);
    assert IsDigit(y[|x|]) && (y + rb)[|x|] == y[|x|];
    if ra != "" { assert (x + ra)[|x|] == ra[0]; }
  }

  lemma DecimalPrefix(a: nat, b: nat, ra: string, rb: string)
    requires Decimal(a) + ra == Decimal(b) + rb && Closes(ra) && Closes(rb)
    ensures a == b && ra == rb
  {
    if |Decimal(a)| < |Decimal(b)| { NumeralEnds(a, b, ra, rb); }
    if |Decimal(b)| < |Decimal(a)| { NumeralEnds(b, a, rb, ra); }
    SameTail(Decimal(a), Decimal(b), ra, rb);
    DecimalInjective(a, b);
  }

  lemma EscapePrefix(c: char, d: char, rc: string, rd: string)
    requires Escape(c) + rc == Escape(d) + rd
    ensures c == d && rc == rd
  {
    var x, y := Escape(c), Escape(d);
    assert (x + rc)[0] == x[0] && (y + rd)[0] == y[0];
    if |x| > 1 && |y| > 1 {
      assert (x + rc)[1] == x[1] && (y + rd)[1] == y[1];
      if |x| == 6 && |y| == 6 {
        assert (x + rc)[4] == x[4] && (y + rd)[4] == y[4];
        assert (x + rc)[5] == x[5] && (y + rd)[5] == y[5];
      }
    }
    assert |x| == |y|;
    SameTail(x, y, rc, rd);
  }

  /** No escape starts with the closing quote. */
  lemma EscapeNotQuote(c: char, rc: string, rest: string)
    ensures Escape(c) + rc != ['"'] + rest
  {
    assert (Escape(c) + rc)[0] == Escape(c)[0];
    assert (['"'] + rest)[0] == '"';
  }

  lemma {:induction false} QuotePrefix(s: string, t: string, rs: string, rt: string)
    requires QuoteTail(s, rs) == QuoteTail(t, rt)
    ensures s == t && rs == rt
  {
    if s == "" && t == "" {
      Uncons('"', '"', rs, rt);
    } else if s == "" {
      EscapeNotQuote(t[0], QuoteTail(t[1..], rt), rs);
    } else if t == "" {
      EscapeNotQuote(s[0], QuoteTail(s[1..], rs), rt);
    } else {
      EscapePrefix(s[0], t[0], QuoteTail(s[1..], rs), QuoteTail(t[1..], rt));
      QuotePrefix(s[1..], t[1..], rs, rt);
      assert s == [s[0]] + s[1..] && t == [t[0]] + t[1..];
    }
  }

  /** The kinds of value, told apart by the first character of their text. */
  function Tag(v: Json): nat {
    match v
    case Null => 0
    case Bool(flag) => if flag then 1 else 2
    case Num(_) => 3
    case Str(_) => 4
    case Arr(_) => 5
    case Obj(_) => 6
  }

  function TagOf(c: char): nat {
    if c == 'n' then 0 else if c == 't' then 1 else if c == 'f' then 2
    else if c == '-' || IsDigit(c) then 3
    else if c == '"' then 4 else if c == '[' then 5 else if c == '{' then 6
    else 7
  }

  lemma FirstChar(v: Json, rest: string)
    ensures Print(v, rest) != "" && TagOf(Print(v, rest)[0]) == Tag(v)
  {
    if v.Num? {
      var n := if v.number < 0 then -v.number else v.number;
      DecimalParses(n);
      assert IsDigit(Decimal(n)[0]);
      assert (Decimal(n) + rest)[0] == Decimal(n)[0];
    }
  }

  lemma MinusNotDigit(n: nat, rest: string, tail: string)
    ensures Decimal(n) + rest != ['-'] + tail
  {
    DecimalParses(n);
    assert IsDigit(Decimal(n)[0]);
    assert (Decimal(n) + rest)[0] == Decimal(n)[0];
    assert (['-'] + tail)[0] == '-';
  }

  lemma NumPrefix(m: int, n: int, rm: string, rn: string)
    requires PrintInt(m, rm) == PrintInt(n, rn) && Closes(rm) && Closes(rn)
    ensures m == n && rm == rn
  {
    if m < 0 && n < 0 {
      Uncons('-', '-', Decimal(-m) + rm, Decimal(-n) + rn);
      DecimalPrefix(-m, -n, rm, rn);
    } else if m >= 0 && n >= 0 {
      DecimalPrefix(m, n, rm, rn);
    } else if m < 0 {
      MinusNotDigit(n, rn, Decimal(-m) + rm);
    } else {
      MinusNotDigit(m, rm, Decimal(-n) + rn);
    }
  }

  /** No value's text, with what may follow it, is also another value's text. */
  lemma {:induction false} PrintPrefix(a: Json, b: Json, ra: string, rb: string)
    requires Print(a, ra) == Print(b, rb) && Closes(ra) && Closes(rb)
    ensures a == b && ra == rb
    decreases a, 1
  {
    FirstChar(a, ra);
    FirstChar(b, rb);
    assert Tag(a) == Tag(b);
    match a
    case Null => SameTail("null", "null", ra, rb);
    case Bool(flag) =>
      if flag { SameTail("true", "true", ra, rb); } else { SameTail("false", "false", ra, rb); }
    case Num(n) => NumPrefix(n, b.number, ra, rb);
    case Str(s) =>
      Uncons('"', '"', QuoteTail(s, ra), QuoteTail(b.text, rb));
      QuotePrefix(s, b.text, ra, rb);
    case Arr(items) =>
      Uncons('[', '[', PrintItems(items, ra), PrintItems(b.items, rb));
      ItemsPrefix(items, b.items, ra, rb);
    case Obj(fields) =>
      Uncons('{', '{', PrintFields(fields, ra), PrintFields(b.fields, rb));
      FieldsPrefix(fields, b.fields, ra, rb);
  }

  /** No element's text starts with a closing bracket. */
  lemma NotClosed(v: Json, rv: string, rest: string)
    ensures Print(v, rv) != [']'] + rest
  {
    FirstChar(v, rv);
    assert ([']'] + rest)[0] == ']';
  }

  lemma {:induction false} ItemsPrefix(xs: seq<Json>, ys: seq<Json>, rx: string, ry: string)
    requires PrintItems(xs, rx) == PrintItems(ys, ry)
    ensures xs == ys && rx == ry
    decreases xs, 2
  {
    if xs == [] && ys == [] {
      Uncons(']', ']', rx, ry);
    } else if xs == [] {
      NotClosed(ys[0], MoreItems(ys[1..], ry), rx);
    } else if ys == [] {
      NotClosed(xs[0], MoreItems(xs[1..], rx), ry);
    } else {
      PrintPrefix(xs[0], ys[0], MoreItems(xs[1..], rx), MoreItems(ys[1..], ry));
      MoreItemsPrefix(xs[1..], ys[1..], rx, ry);
      assert xs == [xs[0]] + xs[1..] && ys == [ys[0]] + ys[1..];
    }
  }

  lemma {:induction false} MoreItemsPrefix(xs: seq<Json>, ys: seq<Json>, rx: string, ry: string)
    requires MoreItems(xs, rx) == MoreItems(ys, ry)
    ensures xs == ys && rx == ry
    decreases xs, 2
  {
    assert MoreItems(xs, rx)[0] == MoreItems(ys, ry)[0];
    if xs == [] {
      Uncons(']', ']', rx, ry);
    } else {
      var tx, ty := MoreItems(xs[1..], rx), MoreItems(ys[1..], ry);
      Uncons(',', ',', Print(xs[0], tx), Print(ys[0], ty));
      PrintPrefix(xs[0], ys[0], tx, ty);
      MoreItemsPrefix(xs[1..], ys[1..], rx, ry);
      assert xs == [xs[0]] + xs[1..] && ys == [ys[0]] + ys[1..];
    }
  }

  lemma {:induction false} FieldPrefix(f: Field, g: Field, rf: string, rg: string)
    requires PrintField(f, rf) == PrintField(g, rg) && Closes(rf) && Closes(rg)
    ensures f == g && rf == rg
    decreases f, 2
  {
    var vf, vg := Print(f.value, rf), Print(g.value, rg);
    Uncons('"', '"', QuoteTail(f.key, [':'] + vf), QuoteTail(g.key, [':'] + vg));
    QuotePrefix(f.key, g.key, [':'] + vf, [':'] + vg);
    Uncons(':', ':', vf, vg);
    PrintPrefix(f.value, g.value, rf, rg);
  }

  lemma {:induction false} FieldsPrefix(xs: seq<Field>, ys: seq<Field>, rx: string, ry: string)
    requires PrintFields(xs, rx) == PrintFields(ys, ry)
    ensures xs == ys && rx == ry
    decreases xs, 3
  {
    assert PrintFields(xs, rx)[0] == PrintFields(ys, ry)[0];
    if xs == [] {
      Uncons('}', '}', rx, ry);
    } else {
      FieldPrefix(xs[0], ys[0], MoreFields(xs[1..], rx), MoreFields(ys[1..], ry));
      MoreFieldsPrefix(xs[1..], ys[1..], rx, ry);
      assert xs == [xs[0]] + xs[1..] && ys == [ys[0]] + ys[1..];
    }
  }

  lemma {:induction false} MoreFieldsPrefix(xs: seq<Field>, ys: seq<Field>, rx: string, ry: string)
    requires MoreFields(xs, rx) == MoreFields(ys, ry)
    ensures xs == ys && rx == ry
    decreases xs, 3
  {
    assert MoreFields(xs, rx)[0] == MoreFields(ys, ry)[0];
    if xs == [] {
      Uncons('}', '}', rx, ry);
    } else {
      var tx, ty := MoreFields(xs[1..], rx), MoreFields(ys[1..], ry);
      Uncons(',', ',', PrintField(xs[0], tx), PrintField(ys[0], ty));
      FieldPrefix(xs[0], ys[0], tx, ty);
      MoreFieldsPrefix(xs[1..], ys[1..], rx, ry);
      assert xs == [xs[0]] + xs[1..] && ys == [ys[0]] + ys[1..];
    }
  }

  /** A value is determined by its text. */
  lemma PrintInjective(a: Json, b: Json)
    requires Print(a, "") == Print(b, "")
    ensures a == b
  {
    PrintPrefix(a, b, "", "");
  }

  // ----- sorting keys decides equality of values -----

  predicate Sorted(fields: seq<Field>) {
    forall i, j :: 0 <= i < j < |fields| ==> Before(fields[i].key, fields[j].key)
  }

  lemma {:induction false} BeforeTransitive(a: string, b: string, c: string)
    requires Before(a, b) && Before(b, c)
    ensures Before(a, c)
  {
    if a != "" && a[0] == b[0] && b[0] == c[0] { BeforeTransitive(a[1..], b[1..], c[1..]); }
  }

  lemma {:induction false} BeforeTotal(a: string, b: string)
    ensures !(Before(a, b) && Before(b, a))
    ensures Before(a, b) || Before(b, a) || a == b
  {
    if a != "" && b != "" && a[0] == b[0] {
      BeforeTotal(a[1..], b[1..]);
      assert a == [a[0]] + a[1..] && b == [b[0]] + b[1..];
    }
  }

  lemma {:induction false} InsertSorts(f: Field, sorted: seq<Field>)
    requires Sorted(sorted) && forall i :: 0 <= i < |sorted| ==> sorted[i].key != f.key
    ensures Sorted(Insert(f, sorted))
    ensures forall g :: g in Insert(f, sorted) <==> g == f || g in sorted
    ensures |Insert(f, sorted)| == |sorted| + 1
  {
    if sorted != [] {
      BeforeTotal(sorted[0].key, f.key);
      if Before(sorted[0].key, f.key) {
        InsertSorts(f, sorted[1..]);
        var tail := Insert(f, sorted[1..]);
        assert sorted == [sorted[0]] + sorted[1..];
        forall j | 0 <= j < |tail| ensures Before(sorted[0].key, tail[j].key) {
          assert tail[j] in tail;
        }
      } else {
        forall j | 0 <= j < |sorted| ensures Before(f.key, sorted[j].key) {
          if j > 0 { BeforeTransitive(f.key, sorted[0].key, sorted[j].key); }
        }
      }
    }
  }

  function NormalField(f: Field): Field { Field(f.key, Normal(f.value)) }

  /** Normalising an object sorts its fields, keeps every key and normalises every value. */
  lemma {:induction false} NormalFieldsSorts(fields: seq<Field>)
    requires UniqueKeys(fields)
    ensures Sorted(NormalFields(fields)) && |NormalFields(fields)| == |fields|
    ensures forall g :: g in NormalFields(fields) <==> exists i :: 0 <= i < |fields| && g == NormalField(fields[i])
  {
    if fields != [] {
      var tail := fields[1..];
      NormalFieldsSorts(tail);
      assert forall i :: 0 <= i < |tail| ==> tail[i] == fields[i + 1];
      forall i | 0 <= i < |NormalFields(tail)| ensures NormalFields(tail)[i].key != fields[0].key {
        assert NormalFields(tail)[i] in NormalFields(tail);
      }
      InsertSorts(NormalField(fields[0]), NormalFields(tail));
      forall g | g in NormalFields(fields)
        ensures exists i :: 0 <= i < |fields| && g == NormalField(fields[i])
      {
        if g != NormalField(fields[0]) {
          var i :| 0 <= i < |tail| && g == NormalField(tail[i]);
          assert g == NormalField(fields[i + 1]);
        }
      }
      forall i | 0 <= i < |fields| ensures NormalField(fields[i]) in NormalFields(fields) {
        if i > 0 { assert NormalField(fields[i]) == NormalField(tail[i - 1]); }
      }
    }
  }

  lemma {:induction false} NormalItemsAt(items: seq<Json>)
    ensures |NormalItems(items)| == |items|
    ensures forall i :: 0 <= i < |items| ==> NormalItems(items)[i] == Normal(items[i])
  {
    if items != [] { NormalItemsAt(items[1..]); }
  }

  /** Strictly sorted sequences with the same elements are equal. */
  lemma {:induction false} SortedUnique(xs: seq<Field>, ys: seq<Field>)
    requires Sorted(xs) && Sorted(ys) && |xs| == |ys|
    requires forall f :: f in xs ==> f in ys
    ensures xs == ys
    decreases |xs|
  {
    if xs != [] {
      // the last of each side is the largest, so they agree
      var m := |xs| - 1;
      assert xs[m] in ys;
      var j :| 0 <= j <= m && ys[j] == xs[m];
      if j < m { SortedTooMany(xs, ys, j); }
      forall f | f in xs[..m] ensures f in ys[..m] {
        var i :| 0 <= i < m && xs[i] == f;
        BeforeTotal(xs[i].key, xs[m].key);
        assert xs[i] in ys;
        var k :| 0 <= k <= m && ys[k] == f;
      }
      SortedUnique(xs[..m], ys[..m]);
      assert xs == xs[..m] + [xs[m]] && ys == ys[..m] + [ys[m]];
    }
  }

  /** A sorted sequence cannot fit, element by element, into a shorter sorted prefix. */
  lemma {:induction false} SortedTooMany(xs: seq<Field>, ys: seq<Field>, j: nat)
    requires Sorted(xs) && Sorted(ys) && 0 < |xs| <= |ys| && j < |xs| - 1
    requires forall f :: f in xs ==> f in ys
    requires ys[j] == xs[|xs| - 1]
    ensures false
    decreases |xs|
  {
    var m := |xs| - 1;
    assert xs[m - 1] in ys;
    var k :| 0 <= k < |ys| && ys[k] == xs[m - 1];
    BeforeTotal(ys[k].key, ys[j].key);
    assert k < j;
    forall f | f in xs[..m] ensures f in ys { assert f in xs; }
    SortedTooMany(xs[..m], ys, k);
  }

  /** Two values are equal exactly when sorting keys makes their representations equal. */
  lemma {:induction false} NormalDecides(a: Json, b: Json)
    requires WellFormed(a) && WellFormed(b)
    ensures SameValue(a, b) <==> Normal(a) == Normal(b)
    decreases a
  {
    match a
    case Arr(items) =>
      if b.Arr? {
        NormalItemsAt(items);
        NormalItemsAt(b.items);
        forall i | 0 <= i < |items| && i < |b.items|
          ensures SameValue(items[i], b.items[i]) <==> Normal(items[i]) == Normal(b.items[i])
        {
          NormalDecides(items[i], b.items[i]);
        }
        if Normal(a) == Normal(b) {
          assert forall i :: 0 <= i < |items| ==> NormalItems(items)[i] == NormalItems(b.items)[i];
        }
        if SameValue(a, b) {
          assert NormalItems(items) == NormalItems(b.items);
        }
      }
    case Obj(fields) =>
      if b.Obj? {
        forall i, j | 0 <= i < |fields| && 0 <= j < |b.fields|
          ensures SameValue(fields[i].value, b.fields[j].value) <==>
                    Normal(fields[i].value) == Normal(b.fields[j].value)
        {
          NormalDecides(fields[i].value, b.fields[j].value);
        }
        NormalDecidesFields(fields, b.fields);
      }
    case _ =>
  }

  lemma NormalDecidesFields(xs: seq<Field>, ys: seq<Field>)
    requires UniqueKeys(xs) && UniqueKeys(ys)
    requires forall i, j :: 0 <= i < |xs| && 0 <= j < |ys| ==>
      (SameValue(xs[i].value, ys[j].value) <==> Normal(xs[i].value) == Normal(ys[j].value))
    ensures SameValue(Obj(xs), Obj(ys)) <==> NormalFields(xs) == NormalFields(ys)
  {
    NormalFieldsSorts(xs);
    NormalFieldsSorts(ys);
    var nx, ny := NormalFields(xs), NormalFields(ys);
    if nx == ny {
      forall i | 0 <= i < |xs| ensures HasField(xs[i], ys) {
        assert NormalField(xs[i]) in ny;
        var j :| 0 <= j < |ys| && NormalField(xs[i]) == NormalField(ys[j]);
      }
    }
    if SameValue(Obj(xs), Obj(ys)) {
      forall f | f in nx ensures f in ny {
        var i :| 0 <= i < |xs| && f == NormalField(xs[i]);
        assert HasField(xs[i], ys);
        var j :| 0 <= j < |ys| && ys[j].key == xs[i].key && SameValue(xs[i].value, ys[j].value);
        assert f == NormalField(ys[j]);
      }
      SortedUnique(nx, ny);
    }
  }

  /** Canonical texts agree exactly on equal values: key order never shows, and nothing else is lost. */
  lemma CanonicalDecides(a: Json, b: Json)
    requires WellFormed(a) && WellFormed(b)
    ensures CanonicalText(a) == CanonicalText(b) <==> SameValue(a, b)
  {
    NormalDecides(a, b);
    if CanonicalText(a) == CanonicalText(b) { PrintInjective(Normal(a), Normal(b)); }
  }

  // ----- comparing objects field by field -----

  lemma LeafSame(a: Json, b: Json)
    requires !a.Arr? && !a.Obj?
    ensures SameValue(a, b) <==> a == b
  {}

  /** Objects with the same distinct keys in the same order are equal exactly when their values are, one by one. */
  lemma FieldByField(xs: seq<Field>, ys: seq<Field>)
    requires |xs| == |ys| && UniqueKeys(ys) && forall i :: 0 <= i < |xs| ==> xs[i].key == ys[i].key
    ensures SameValue(Obj(xs), Obj(ys)) <==> forall i :: 0 <= i < |xs| ==> SameValue(xs[i].value, ys[i].value)
  {
    if SameValue(Obj(xs), Obj(ys)) {
      forall i | 0 <= i < |xs| ensures SameValue(xs[i].value, ys[i].value) {
        assert HasField(xs[i], ys);
        var j :| 0 <= j < |ys| && ys[j].key == xs[i].key && SameValue(xs[i].value, ys[j].value);
        assert j == i;
      }
    }
    if forall i :: 0 <= i < |xs| ==> SameValue(xs[i].value, ys[i].value) {
      forall i | 0 <= i < |xs| ensures HasField(xs[i], ys) { assert SameValue(xs[i].value, ys[i].value); }
    }
  }

  /** In equal objects a key has equal values. */
  lemma FieldAgrees(xs: seq<Field>, ys: seq<Field>, i: nat, j: nat)
    requires SameValue(Obj(xs), Obj(ys)) && UniqueKeys(ys) && i < |xs| && j < |ys| && xs[i].key == ys[j].key
    ensures SameValue(xs[i].value, ys[j].value)
  {
    assert HasField(xs[i], ys);
  }
}
