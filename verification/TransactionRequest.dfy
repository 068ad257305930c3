/** The user's request for one EVM transaction, and the JSON under which the journal admits it. */
module TransactionRequest {
  import opened Wrappers
  import opened Text
  import opened Json
  import opened ReplayKey

  type Address = a: seq<nat> | IsAddress(a) witness seq(20, _ => 0)
  type Bytes = s: seq<nat> | forall i :: 0 <= i < |s| ==> s[i] < 256

  /** JSON as a serializer writes it: no object repeats a key. */
  type Value = v: Json | WellFormed(v) witness Null

  datatype Authorization = Authorization(chainId: nat, address: Address, nonce: nat, yParity: nat, r: nat, s: nat)

  /** The optional fee fields, flattened into the request. Only a set-code (EIP-7702) request carries authorizations. */
  datatype Fees =
    | Unspecified
    | SetCode(authorizations: Option<seq<Authorization>>, maxFee: Option<nat>, maxPriorityFee: Option<nat>)
    | Dynamic(maxFee: Option<nat>, maxPriorityFee: Option<nat>)
    | Legacy(gasPrice: Option<nat>)

  datatype EoaRequest = EoaRequest(
    transactionId: string, chainId: nat, from: Address, to: Option<Address>, value: nat, data: Bytes,
    gasLimit: Option<nat>, webhooks: Value, signing: Value, rpc: Value, fees: Fees)

  /** The authorizations a wire of this request must carry. */
  function Expected(r: EoaRequest): seq<Authorization> {
    if r.fees.SetCode? && r.fees.authorizations.Some? then r.fees.authorizations.value else []
  }

  // ----- texts -----

  function HexText(bytes: seq<nat>): string {
    if bytes == [] then "" else [Hex(bytes[0] / 16 % 16), Hex(bytes[0] % 16)] + HexText(bytes[1..])
  }

  function HexDigits(n: nat): string {
    if n < 16 then [Hex(n)] else HexDigits(n / 16) + [Hex(n % 16)]
  }

  /** A number as Ethereum writes quantities: hexadecimal, no leading zero. */
  function Quantity(n: nat): string { "0x" + HexDigits(n) }

  lemma {:induction false} HexTextInjective(a: Bytes, b: Bytes)
    requires HexText(a) == HexText(b)
    ensures a == b
  {
    if a != [] && b != [] {
      var x, y := HexText(a), HexText(b);
      assert x[0] == y[0] && x[1] == y[1];
      HexInjective(a[0] / 16, b[0] / 16);
      HexInjective(a[0] % 16, b[0] % 16);
      assert x[2..] == HexText(a[1..]) && y[2..] == HexText(b[1..]);
      HexTextInjective(a[1..], b[1..]);
      assert a == [a[0]] + a[1..] && b == [b[0]] + b[1..];
    }
  }

  lemma {:induction false} HexDigitsInjective(a: nat, b: nat)
    requires HexDigits(a) == HexDigits(b)
    ensures a == b
  {
    var x, y := HexDigits(a), HexDigits(b);
    assert x[|x| - 1] == Hex(a % 16) && y[|y| - 1] == Hex(b % 16);
    HexInjective(a % 16, b % 16);
    HexDigitsSome(a / 16);
    HexDigitsSome(b / 16);
    if a >= 16 && b >= 16 {
      assert x[..|x| - 1] == HexDigits(a / 16) && y[..|y| - 1] == HexDigits(b / 16);
      HexDigitsInjective(a / 16, b / 16);
    }
  }

  lemma HexDigitsSome(n: nat)
    ensures |HexDigits(n)| >= 1
  {}

  lemma QuantityInjective(a: nat, b: nat)
    requires Quantity(a) == Quantity(b)
    ensures a == b
  {
    assert Quantity(a)[2..] == HexDigits(a) && Quantity(b)[2..] == HexDigits(b);
    HexDigitsInjective(a, b);
  }

  // ----- the request as JSON -----

  function AuthorizationJson(a: Authorization): Json {
    Obj([Field("chainId", Str(Quantity(a.chainId))), Field("address", Str(AddressText(a.address))),
         Field("nonce", Str(Quantity(a.nonce))), Field("yParity", Str(Quantity(a.yParity))),
         Field("r", Str(Quantity(a.r))), Field("s", Str(Quantity(a.s)))])
  }

  function NumberField(key: string, n: Option<nat>): seq<Field> { if n.Some? then [Field(key, Num(n.value))] else [] }

  function FeeFields(f: Fees): seq<Field> {
    match f
    case Unspecified => []
    case SetCode(authorizations, maxFee, maxPriorityFee) =>
      ListField(authorizations) + NumberField("maxFeePerGas", maxFee)
        + NumberField("maxPriorityFeePerGas", maxPriorityFee)
    case Dynamic(maxFee, maxPriorityFee) =>
      NumberField("maxFeePerGas", maxFee) + NumberField("maxPriorityFeePerGas", maxPriorityFee)
    case Legacy(gasPrice) => NumberField("gasPrice", gasPrice)
  }

  function ListField(authorizations: Option<seq<Authorization>>): seq<Field> {
    if authorizations.None? then []
    else
      [Field("authorizationList",
             Arr(seq(|authorizations.value|,
                     i requires 0 <= i < |authorizations.value| => AuthorizationJson(authorizations.value[i]))))]
  }

  function OwnFields(r: EoaRequest): seq<Field> {
    [Field("transactionId", Str(r.transactionId)), Field("chainId", Num(r.chainId)),
     Field("from", Str(AddressText(r.from))), Field("to", if r.to.None? then Null else Str(AddressText(r.to.value))),
     Field("value", Str(Quantity(r.value))), Field("data", Str("0x" + HexText(r.data))),
     Field("gasLimit", if r.gasLimit.None? then Null else Num(r.gasLimit.value)),
     Field("webhookOptions", r.webhooks), Field("signingCredential", r.signing), Field("rpcCredentials", r.rpc)]
  }

  function RequestJson(r: EoaRequest): Json { Obj(OwnFields(r) + FeeFields(r.fees)) }

  /** The place of a field name in a request. */
  function Place(key: string): nat {
    match |key|
    case 13 => 0
    case 7 => 1
    case 4 => if key[3] == 'm' then 2 else 5
    case 2 => 3
    case 5 => 4
    case 8 => if key[3] == 'L' then 6 else 13
    case 14 => if key[3] == 'h' then 7 else 9
    case 17 => if key[3] == 'n' then 8 else 10
    case 12 => 11
    case 20 => 12
    case _ => 14
  }

  lemma OwnPlaces(r: EoaRequest)
    ensures |OwnFields(r)| == 10 && forall i :: 0 <= i < 10 ==> Place(OwnFields(r)[i].key) == i
  {
    assert Place("transactionId") == 0 && Place("chainId") == 1 && Place("from") == 2 && Place("to") == 3
           && Place("value") == 4;
    assert Place("data") == 5 && Place("gasLimit") == 6 && Place("webhookOptions") == 7
           && Place("signingCredential") == 8;
    assert Place("rpcCredentials") == 9;
    hide Place, AddressText;
  }

  lemma FeePlaces(f: Fees)
    ensures var fields := FeeFields(f);
            forall i, j :: 0 <= i < j < |fields| ==> 10 <= Place(fields[i].key) < Place(fields[j].key)
    ensures forall i :: 0 <= i < |FeeFields(f)| ==> 10 <= Place(FeeFields(f)[i].key)
    ensures forall i :: 0 <= i < |FeeFields(f)| && Place(FeeFields(f)[i].key) == 10 ==>
                        i == 0 && f.SetCode? && f.authorizations.Some?
                        && FeeFields(f)[0] == ListField(f.authorizations)[0]
  {
    assert Place("authorizationList") == 10 && Place("maxFeePerGas") == 11 && Place("maxPriorityFeePerGas") == 12
           && Place("gasPrice") == 13;
    hide Place;
  }

  lemma KeysDiffer(r: EoaRequest)
    ensures UniqueKeys(RequestJson(r).fields)
  {
    OwnPlaces(r);
    FeePlaces(r.fees);
    var fields := RequestJson(r).fields;
    hide Place, FeeFields, OwnFields;
    forall i, j | 0 <= i < j < |fields| ensures Place(fields[i].key) < Place(fields[j].key) {
      if i < 10 { assert fields[i] == OwnFields(r)[i]; } else { assert fields[i] == FeeFields(r.fees)[i - 10]; }
      if j < 10 { assert fields[j] == OwnFields(r)[j]; } else { assert fields[j] == FeeFields(r.fees)[j - 10]; }
    }
  }

  lemma AuthorizationWellFormed(a: Authorization)
    ensures WellFormed(AuthorizationJson(a)) && UniqueKeys(AuthorizationJson(a).fields)
  {
    assert |"chainId"| == 7 && |"address"| == 7 && "chainId"[0] == 'c' && "address"[0] == 'a';
    assert |"nonce"| == 5 && |"yParity"| == 7 && "yParity"[0] == 'y' && |"r"| == 1 && |"s"| == 1 && "r"[0] == 'r'
           && "s"[0] == 's';
    hide Quantity, AddressText;
  }

  lemma AuthorizationSame(a: Authorization, b: Authorization)
    requires SameValue(AuthorizationJson(a), AuthorizationJson(b))
    ensures a == b
  {
    var x, y := AuthorizationJson(a).fields, AuthorizationJson(b).fields;
    AuthorizationWellFormed(b);
    AuthorizationShape(a, b);
    hide SameValue, WellFormed, UniqueKeys, AuthorizationJson;
    FieldByField(x, y);
    forall i | 0 <= i < 6 ensures x[i].value == y[i].value { LeafSame(x[i].value, y[i].value); }
    AuthorizationTexts(a, b);
  }

  lemma AuthorizationShape(a: Authorization, b: Authorization)
    ensures var x, y := AuthorizationJson(a), AuthorizationJson(b);
            && x.Obj? && y.Obj? && |x.fields| == |y.fields| == 6
            && forall i :: 0 <= i < 6 ==> x.fields[i].key == y.fields[i].key && x.fields[i].value.Str?
  {
    hide Quantity, AddressText;
  }

  lemma AuthorizationTexts(a: Authorization, b: Authorization)
    requires forall i :: 0 <= i < 6 ==> AuthorizationJson(a).fields[i].value == AuthorizationJson(b).fields[i].value
    ensures a == b
  {
    hide Quantity, AddressText;
    var x, y := AuthorizationJson(a).fields, AuthorizationJson(b).fields;
    assert x[0].value == y[0].value && x[1].value == y[1].value && x[2].value == y[2].value;
    assert x[3].value == y[3].value && x[4].value == y[4].value && x[5].value == y[5].value;
    QuantityInjective(a.chainId, b.chainId);
    AddressTextInjective(a.address, b.address);
    QuantityInjective(a.nonce, b.nonce);
    QuantityInjective(a.yParity, b.yParity);
    QuantityInjective(a.r, b.r);
    QuantityInjective(a.s, b.s);
  }

  lemma ListSame(a: seq<Authorization>, b: seq<Authorization>)
    requires SameValue(ListField(Some(a))[0].value, ListField(Some(b))[0].value)
    ensures a == b
  {
    hide AuthorizationJson;
    var x, y := ListField(Some(a))[0].value, ListField(Some(b))[0].value;
    forall i | 0 <= i < |a| ensures a[i] == b[i] {
      assert SameValue(x.items[i], y.items[i]);
      AuthorizationSame(a[i], b[i]);
    }
  }

  lemma ListWellFormed(a: seq<Authorization>)
    ensures WellFormed(ListField(Some(a))[0].value)
  {
    hide AuthorizationJson;
    forall i | 0 <= i < |a| ensures WellFormed(AuthorizationJson(a[i])) { AuthorizationWellFormed(a[i]); }
  }

  lemma RequestWellFormed(r: EoaRequest)
    ensures WellFormed(RequestJson(r))
  {
    KeysDiffer(r);
    if r.fees.SetCode? && r.fees.authorizations.Some? { ListWellFormed(r.fees.authorizations.value); }
    hide UniqueKeys, ListField, AddressText, Quantity, HexText;
  }

  lemma ListPlace(r: EoaRequest, j: nat)
    requires j < |RequestJson(r).fields| && Place(RequestJson(r).fields[j].key) == 10
    ensures r.fees.SetCode? && r.fees.authorizations.Some?
            && RequestJson(r).fields[j] == ListField(r.fees.authorizations)[0]
  {
    OwnPlaces(r);
    FeePlaces(r.fees);
    hide Place, OwnFields, FeeFields, ListField;
  }

  /** A request with an authorization list only equals one with the same list. */
  lemma ListAgrees(a: EoaRequest, b: EoaRequest)
    requires SameValue(RequestJson(a), RequestJson(b)) && a.fees.SetCode? && a.fees.authorizations.Some?
    ensures b.fees.SetCode? && a.fees.authorizations == b.fees.authorizations
  {
    var x, y := RequestJson(a).fields, RequestJson(b).fields;
    assert x[10] == ListField(a.fees.authorizations)[0];
    assert Place(x[10].key) == 10;
    assert HasField(x[10], y);
    hide SameValue, ListField, Place, OwnFields, FeeFields;
    var j :| 0 <= j < |y| && y[j].key == x[10].key && SameValue(x[10].value, y[j].value);
    ListPlace(b, j);
    ListSame(a.fees.authorizations.value, b.fees.authorizations.value);
  }

  /** Requests admitted under one canonical text ask for the same call: nothing a wire carries is lost in the JSON. */
  lemma RequestJsonInjective(a: EoaRequest, b: EoaRequest)
    requires CanonicalText(RequestJson(a)) == CanonicalText(RequestJson(b))
    ensures a.transactionId == b.transactionId && a.chainId == b.chainId && a.from == b.from && a.to == b.to
    ensures a.value == b.value && a.data == b.data && a.gasLimit == b.gasLimit && Expected(a) == Expected(b)
  {
    var x, y := RequestJson(a).fields, RequestJson(b).fields;
    RequestWellFormed(a);
    RequestWellFormed(b);
    KeysDiffer(b);
    hide FeeFields, WellFormed, UniqueKeys, SameValue, CanonicalText, Quantity, AddressText, HexText;
    CanonicalDecides(RequestJson(a), RequestJson(b));
    CanonicalDecides(RequestJson(b), RequestJson(a));
    if a.fees.SetCode? && a.fees.authorizations.Some? { ListAgrees(a, b); }
    if b.fees.SetCode? && b.fees.authorizations.Some? { ListAgrees(b, a); }
    forall i | 0 <= i < 7 ensures x[i].value == y[i].value {
      FieldAgrees(x, y, i, i);
      LeafSame(x[i].value, y[i].value);
    }
    OwnTexts(a, b);
  }

  lemma OwnTexts(a: EoaRequest, b: EoaRequest)
    requires forall i :: 0 <= i < 7 ==> RequestJson(a).fields[i].value == RequestJson(b).fields[i].value
    ensures a.transactionId == b.transactionId && a.chainId == b.chainId && a.from == b.from && a.to == b.to
    ensures a.value == b.value && a.data == b.data && a.gasLimit == b.gasLimit
  {
    hide FeeFields, Quantity, AddressText, HexText;
    var x, y := RequestJson(a).fields, RequestJson(b).fields;
    assert x[0].value == y[0].value && x[1].value == y[1].value && x[2].value == y[2].value && x[3].value == y[3].value;
    assert x[4].value == y[4].value && x[5].value == y[5].value && x[6].value == y[6].value;
    AddressTextInjective(a.from, b.from);
    if a.to.Some? { AddressTextInjective(a.to.value, b.to.value); }
    QuantityInjective(a.value, b.value);
    assert ("0x" + HexText(a.data))[2..] == HexText(a.data) && ("0x" + HexText(b.data))[2..] == HexText(b.data);
    HexTextInjective(a.data, b.data);
  }
}
