/**
 * Re-encoding of a transaction fetched from a node, for comparison with the journal's signed bytes. Equal bytes
 * bind every signed field across legacy, EIP-2930, EIP-1559 and EIP-7702 transactions.
 */
module EvmWire {
  import opened Wrappers
  import opened Rlp

  datatype Access = Access(address: seq<byte>, storageKeys: seq<seq<byte>>)
  datatype Authorization = Authorization(chainId: nat, address: seq<byte>, nonce: nat, parity: nat, r: nat, s: nat)

  /** A transaction as a node returns it, quantities and byte strings already read from their hex texts. */
  datatype NodeTransaction = NodeTransaction(
    kind: nat, chainId: Option<nat>, nonce: nat,
    gasPrice: Option<nat>, maxPriorityFeePerGas: Option<nat>, maxFeePerGas: Option<nat>,
    gas: nat, to: seq<byte>, value: nat, input: seq<byte>,
    accessList: Option<seq<Access>>, authorizationList: Option<seq<Authorization>>,
    yParity: Option<nat>, v: Option<nat>, r: nat, s: nat)

  /** What a signature covers, with the signature. */
  datatype Signed =
    | Legacy(nonce: nat, gasPrice: nat, gas: nat, to: seq<byte>, value: nat, input: seq<byte>, v: nat, r: nat, s: nat)
    | Typed(kind: byte, chainId: nat, nonce: nat, fees: seq<nat>, gas: nat, to: seq<byte>, value: nat, input: seq<byte>,
            access: seq<Access>, authorizations: seq<Authorization>, parity: nat, r: nat, s: nat)

  /** The parity is taken from `yParity`, or from `v` where that is absent. */
  function Parity(t: NodeTransaction): Option<nat> { if t.yParity.Some? then t.yParity else t.v }

  function Fees(t: NodeTransaction): Option<seq<nat>> {
    if t.kind == 1 then if t.gasPrice.Some? then Some([t.gasPrice.value]) else None
    else if t.maxPriorityFeePerGas.Some? && t.maxFeePerGas.Some? then
      Some([t.maxPriorityFeePerGas.value, t.maxFeePerGas.value])
    else None
  }

  /** The signed fields of a supported transaction; None where the encoder refuses it. */
  function SignedFields(t: NodeTransaction): Option<Signed> {
    if t.kind == 0 then
      if t.gasPrice.None? || t.v.None? then None
      else Some(Legacy(t.nonce, t.gasPrice.value, t.gas, t.to, t.value, t.input, t.v.value, t.r, t.s))
    else if t.kind != 1 && t.kind != 2 && t.kind != 4 then None
    else if t.chainId.None? || t.accessList.None? || Fees(t).None? || (t.kind == 4 && t.authorizationList.None?) then
      None
    else if Parity(t) != Some(0) && Parity(t) != Some(1) then None
    else Some(Typed(t.kind, t.chainId.value, t.nonce, Fees(t).value, t.gas, t.to, t.value, t.input, t.accessList.value,
                    if t.kind == 4 then t.authorizationList.value else [], Parity(t).value, t.r, t.s))
  }

  function AccessValue(a: Access): Value { List([Bytes(a.address), List(KeyValues(a.storageKeys))]) }

  function KeyValues(keys: seq<seq<byte>>): seq<Value> {
    if keys == [] then [] else [Bytes(keys[0])] + KeyValues(keys[1..])
  }

  function AccessValues(entries: seq<Access>): seq<Value> {
    if entries == [] then [] else [AccessValue(entries[0])] + AccessValues(entries[1..])
  }

  function AuthorizationValue(a: Authorization): Value {
    List([Int(a.chainId), Bytes(a.address), Int(a.nonce), Int(a.parity), Int(a.r), Int(a.s)])
  }

  function AuthorizationValues(entries: seq<Authorization>): seq<Value> {
    if entries == [] then [] else [AuthorizationValue(entries[0])] + AuthorizationValues(entries[1..])
  }

  function IntValues(ns: seq<nat>): seq<Value> { if ns == [] then [] else [Int(ns[0])] + IntValues(ns[1..]) }

  /** The list that is encoded. */
  function Fields(t: Signed): seq<Value> {
    match t
    case Legacy(nonce, gasPrice, gas, to, value, input, v, r, s) =>
      [Int(nonce), Int(gasPrice), Int(gas), Bytes(to), Int(value), Bytes(input), Int(v), Int(r), Int(s)]
    case Typed(kind, chainId, nonce, fees, gas, to, value, input, access, authorizations, parity, r, s) =>
      [Int(chainId), Int(nonce)] + IntValues(fees)
        + [Int(gas), Bytes(to), Int(value), Bytes(input), List(AccessValues(access))]
      + (if kind == 4 then [List(AuthorizationValues(authorizations))] else []) + [Int(parity), Int(r), Int(s)]
  }

  /** The wire bytes: a bare list for legacy transactions, a type byte and a list for the rest. */
  function Wire(t: Signed): Option<seq<byte>> {
    var body := Encode(List(Fields(t)));
    if body.None? then None else if t.Legacy? then body else Some([t.kind] + body.value)
  }

  function NodeWire(t: NodeTransaction): Option<seq<byte>> {
    var fields := SignedFields(t);
    if fields.None? then None else Wire(fields.value)
  }

  /** `verify_evm_node_wire`, as far as the bytes go. */
  predicate Verifies(wire: seq<byte>, t: NodeTransaction) { NodeWire(t) == Some(wire) }

  /** The type byte, the number of fees and the presence of authorizations go together. */
  predicate WellTyped(t: Signed) {
    t.Typed? ==>
      (t.kind == 1 || t.kind == 2 || t.kind == 4) && |t.fees| == (if t.kind == 1 then 1 else 2)
      && (t.kind != 4 ==> t.authorizations == [])
  }

  lemma SignedFieldsWellTyped(t: NodeTransaction)
    requires SignedFields(t).Some?
    ensures WellTyped(SignedFields(t).value)
  {}

  // ----- normal forms determine the fields -----

  lemma BigEndianInjective(m: nat, n: nat)
    requires BigEndian(m) == BigEndian(n)
    ensures m == n
  {
    BigEndianRoundTrip(m);
    BigEndianRoundTrip(n);
  }

  lemma IntInjective(m: nat, n: nat)
    requires Normal(Int(m)) == Normal(Int(n))
    ensures m == n
  {
    BigEndianInjective(m, n);
  }

  lemma {:induction false} NormalAllAt(items: seq<Value>)
    ensures |NormalAll(items)| == |items| && forall i :: 0 <= i < |items| ==> NormalAll(items)[i] == Normal(items[i])
  {
    if items != [] { NormalAllAt(items[1..]); }
  }

  /** Equal normal lists are equal element by element. */
  lemma ListInjective(a: seq<Value>, b: seq<Value>)
    requires NormalAll(a) == NormalAll(b)
    ensures |a| == |b| && forall i :: 0 <= i < |a| ==> Normal(a[i]) == Normal(b[i])
    ensures a != [] ==> NormalAll(a[1..]) == NormalAll(b[1..])
  {
    if a != [] && b != [] { assert NormalAll(a)[1..] == NormalAll(a[1..]) && NormalAll(b)[1..] == NormalAll(b[1..]); }
    NormalAllAt(a);
    NormalAllAt(b);
    assert forall i :: 0 <= i < |a| ==> NormalAll(a)[i] == NormalAll(b)[i];
  }

  lemma {:induction false} KeysInjective(a: seq<seq<byte>>, b: seq<seq<byte>>)
    requires NormalAll(KeyValues(a)) == NormalAll(KeyValues(b))
    ensures a == b
  {
    ListInjective(KeyValues(a), KeyValues(b));
    if a != [] && b != [] {
      assert Normal(KeyValues(a)[0]) == Normal(KeyValues(b)[0]);
      assert KeyValues(a)[1..] == KeyValues(a[1..]) && KeyValues(b)[1..] == KeyValues(b[1..]);
      KeysInjective(a[1..], b[1..]);
      assert a == [a[0]] + a[1..] && b == [b[0]] + b[1..];
    }
  }

  lemma AccessInjective(a: Access, b: Access)
    requires Normal(AccessValue(a)) == Normal(AccessValue(b))
    ensures a == b
  {
    var x, y := AccessValue(a).items, AccessValue(b).items;
    ListInjective(x, y);
    assert Normal(x[0]) == Normal(y[0]) && Normal(x[1]) == Normal(y[1]);
    KeysInjective(a.storageKeys, b.storageKeys);
  }

  lemma {:induction false} AccessesInjective(a: seq<Access>, b: seq<Access>)
    requires NormalAll(AccessValues(a)) == NormalAll(AccessValues(b))
    ensures a == b
  {
    ListInjective(AccessValues(a), AccessValues(b));
    if a != [] && b != [] {
      assert Normal(AccessValues(a)[0]) == Normal(AccessValues(b)[0]);
      AccessInjective(a[0], b[0]);
      assert AccessValues(a)[1..] == AccessValues(a[1..]) && AccessValues(b)[1..] == AccessValues(b[1..]);
      AccessesInjective(a[1..], b[1..]);
      assert a == [a[0]] + a[1..] && b == [b[0]] + b[1..];
    }
  }

  lemma AuthorizationInjective(a: Authorization, b: Authorization)
    requires Normal(AuthorizationValue(a)) == Normal(AuthorizationValue(b))
    ensures a == b
  {
    var x, y := AuthorizationValue(a).items, AuthorizationValue(b).items;
    ListInjective(x, y);
    assert forall i :: 0 <= i < 6 ==> Normal(x[i]) == Normal(y[i]);
    IntInjective(x[0].number, y[0].number);
    IntInjective(x[2].number, y[2].number);
    IntInjective(x[3].number, y[3].number);
    IntInjective(x[4].number, y[4].number);
    IntInjective(x[5].number, y[5].number);
    assert Normal(x[1]) == Normal(y[1]);
  }

  lemma {:induction false} AuthorizationsInjective(a: seq<Authorization>, b: seq<Authorization>)
    requires NormalAll(AuthorizationValues(a)) == NormalAll(AuthorizationValues(b))
    ensures a == b
  {
    ListInjective(AuthorizationValues(a), AuthorizationValues(b));
    if a != [] && b != [] {
      assert Normal(AuthorizationValues(a)[0]) == Normal(AuthorizationValues(b)[0]);
      AuthorizationInjective(a[0], b[0]);
      assert AuthorizationValues(a)[1..] == AuthorizationValues(a[1..])
             && AuthorizationValues(b)[1..] == AuthorizationValues(b[1..]);
      AuthorizationsInjective(a[1..], b[1..]);
      assert a == [a[0]] + a[1..] && b == [b[0]] + b[1..];
    }
  }

  lemma LegacyInjective(a: Signed, b: Signed)
    requires a.Legacy? && b.Legacy? && NormalAll(Fields(a)) == NormalAll(Fields(b))
    ensures a == b
  {
    var x, y := Fields(a), Fields(b);
    ListInjective(x, y);
    assert forall i :: 0 <= i < 9 ==> Normal(x[i]) == Normal(y[i]);
    hide Fields;
    SameInts(x, y, 0); SameInts(x, y, 1); SameInts(x, y, 2); SameInts(x, y, 4);
    SameInts(x, y, 6); SameInts(x, y, 7); SameInts(x, y, 8);
    assert Normal(x[3]) == Normal(y[3]) && Normal(x[5]) == Normal(y[5]);
  }

  lemma SameInts(x: seq<Value>, y: seq<Value>, i: nat)
    requires i < |x| && i < |y| && Normal(x[i]) == Normal(y[i]) && x[i].Int? && y[i].Int?
    ensures x[i] == y[i]
  {
    IntInjective(x[i].number, y[i].number);
  }

  /** Where each field of a typed transaction stands in its list. */
  lemma TypedLayout(t: Signed)
    requires t.Typed? && WellTyped(t)
    ensures var x, n := Fields(t), |t.fees|;
            && |x| == n + 10 + (if t.kind == 4 then 1 else 0)
            && x[0] == Int(t.chainId) && x[1] == Int(t.nonce) && x[2] == Int(t.fees[0])
            && (n == 2 ==> x[3] == Int(t.fees[1]))
            && x[n + 2] == Int(t.gas) && x[n + 3] == Bytes(t.to) && x[n + 4] == Int(t.value)
            && x[n + 5] == Bytes(t.input)
            && x[n + 6] == List(AccessValues(t.access))
            && (t.kind == 4 ==> x[n + 7] == List(AuthorizationValues(t.authorizations)))
            && x[|x| - 3] == Int(t.parity) && x[|x| - 2] == Int(t.r) && x[|x| - 1] == Int(t.s)
  {
    assert t.fees[1..] == if |t.fees| == 1 then [] else [t.fees[1]];
    if |t.fees| == 2 { assert IntValues([t.fees[1]]) == [Int(t.fees[1])] + IntValues([]); }
    assert IntValues(t.fees) == if |t.fees| == 1 then [Int(t.fees[0])] else [Int(t.fees[0]), Int(t.fees[1])];
  }

  lemma TypedInjective(a: Signed, b: Signed)
    requires a.Typed? && b.Typed? && a.kind == b.kind && WellTyped(a) && WellTyped(b)
             && NormalAll(Fields(a)) == NormalAll(Fields(b))
    ensures a == b
  {
    var x, y, n := Fields(a), Fields(b), |a.fees|;
    ListInjective(x, y);
    TypedLayout(a);
    TypedLayout(b);
    hide Fields;
    var m := |x|;
    SameInts(x, y, 0); SameInts(x, y, 1); SameInts(x, y, 2);
    if n == 2 { SameInts(x, y, 3); }
    SameInts(x, y, n + 2); SameInts(x, y, n + 4); SameInts(x, y, m - 3); SameInts(x, y, m - 2); SameInts(x, y, m - 1);
    assert Normal(x[n + 3]) == Normal(y[n + 3]) && Normal(x[n + 5]) == Normal(y[n + 5]);
    assert Normal(x[n + 6]) == Normal(y[n + 6]);
    AccessesInjective(a.access, b.access);
    if a.kind == 4 {
      assert Normal(x[n + 7]) == Normal(y[n + 7]);
      AuthorizationsInjective(a.authorizations, b.authorizations);
    }
    assert a.fees == b.fees;
  }

  /** A list's encoding starts at or above 0xC0, so it is never mistaken for a type byte. */
  lemma ListFirstByte(items: seq<Value>)
    requires Encode(List(items)).Some?
    ensures |Encode(List(items)).value| > 0 && Encode(List(items)).value[0] >= 0xC0
  {
    var body := EncodeAll(items).value;
    if |body| >= 56 { LengthWidth(|body|); }
  }

  /** One wire, one signed transaction: the bytes determine the type and every signed field. */
  lemma WireInjective(a: Signed, b: Signed)
    requires WellTyped(a) && WellTyped(b) && Wire(a).Some? && Wire(a) == Wire(b)
    ensures a == b
  {
    hide Encode, Fields;
    var x, y := Encode(List(Fields(a))).value, Encode(List(Fields(b))).value;
    ListFirstByte(Fields(a));
    ListFirstByte(Fields(b));
    assert Wire(a).value[0] == Wire(b).value[0];
    assert a.Legacy? <==> b.Legacy?;
    if a.Typed? {
      assert x == ([a.kind] + x)[1..] && y == ([b.kind] + y)[1..];
    }
    EncodeInjective(List(Fields(a)), List(Fields(b)));
    if a.Legacy? { LegacyInjective(a, b); } else { TypedInjective(a, b); }
  }

  /**
   * Reading a legacy wire back gives its nine fields in the order nonce, gas price, gas, recipient, value, input, v,
   * r, s.
   */
  lemma LegacyWireReadsBack(t: Signed)
    requires t.Legacy? && Wire(t).Some?
    ensures Decode(Wire(t).value, MAX_DEPTH) == Some(Node([
              Leaf(BigEndian(t.nonce)), Leaf(BigEndian(t.gasPrice)), Leaf(BigEndian(t.gas)),
              Leaf(t.to), Leaf(BigEndian(t.value)), Leaf(t.input),
              Leaf(BigEndian(t.v)), Leaf(BigEndian(t.r)), Leaf(BigEndian(t.s))]))
  {
    var x := Fields(t);
    DecodeInvertsEncode(List(x), MAX_DEPTH);
    NormalAllAt(x);
    FlatDepth(x);
    assert NormalAll(x) == [
      Leaf(BigEndian(t.nonce)), Leaf(BigEndian(t.gasPrice)), Leaf(BigEndian(t.gas)),
      Leaf(t.to), Leaf(BigEndian(t.value)), Leaf(t.input),
      Leaf(BigEndian(t.v)), Leaf(BigEndian(t.r)), Leaf(BigEndian(t.s))];
  }

  lemma {:induction false} FlatDepth(items: seq<Value>)
    requires forall i :: 0 <= i < |items| ==> Depth(items[i]) == 0
    ensures DepthAll(items) == 0
  {
    if items != [] { FlatDepth(items[1..]); }
  }

  lemma {:induction false} DepthBound(items: seq<Value>, bound: nat)
    requires forall i :: 0 <= i < |items| ==> Depth(items[i]) <= bound
    ensures DepthAll(items) <= bound
  {
    if items != [] { DepthBound(items[1..], bound); }
  }

  lemma {:induction false} KeysFlat(keys: seq<seq<byte>>)
    ensures forall i :: 0 <= i < |KeyValues(keys)| ==> Depth(KeyValues(keys)[i]) == 0
  {
    if keys != [] { KeysFlat(keys[1..]); }
  }

  lemma {:induction false} AccessDepth(entries: seq<Access>)
    ensures forall i :: 0 <= i < |AccessValues(entries)| ==> Depth(AccessValues(entries)[i]) <= 2
  {
    if entries != [] {
      AccessDepth(entries[1..]);
      var a := AccessValue(entries[0]).items;
      KeysFlat(entries[0].storageKeys);
      FlatDepth(KeyValues(entries[0].storageKeys));
      DepthBound(a, 1);
    }
  }

  lemma {:induction false} AuthorizationDepth(entries: seq<Authorization>)
    ensures forall i :: 0 <= i < |AuthorizationValues(entries)| ==> Depth(AuthorizationValues(entries)[i]) <= 1
  {
    if entries != [] {
      AuthorizationDepth(entries[1..]);
      FlatDepth(AuthorizationValue(entries[0]).items);
    }
  }

  /**
   * Every wire the re-encoder writes is one the guard's bounded decoder reads back, field for field, after the type
   * byte.
   */
  lemma TypedWireReadsBack(t: Signed)
    requires t.Typed? && WellTyped(t) && Wire(t).Some?
    ensures Wire(t).value[0] == t.kind && Decode(Wire(t).value[1..], MAX_DEPTH) == Some(Node(NormalAll(Fields(t))))
    ensures var x, n := NormalAll(Fields(t)), |t.fees|;
            && |x| == n + 10 + (if t.kind == 4 then 1 else 0)
            && x[0] == Leaf(BigEndian(t.chainId)) && x[1] == Leaf(BigEndian(t.nonce))
            && x[n + 2] == Leaf(BigEndian(t.gas)) && x[n + 3] == Leaf(t.to)
            && x[n + 4] == Leaf(BigEndian(t.value)) && x[n + 5] == Leaf(t.input)
            && x[|x| - 3] == Leaf(BigEndian(t.parity)) && x[|x| - 2] == Leaf(BigEndian(t.r))
            && x[|x| - 1] == Leaf(BigEndian(t.s))
  {
    var x := Fields(t);
    TypedLayout(t);
    NormalAllAt(x);
    TypedDepth(t);
    DecodeInvertsEncode(List(x), MAX_DEPTH);
    assert Wire(t).value[1..] == Encode(List(x)).value;
  }

  lemma TypedDepth(t: Signed)
    requires t.Typed? && WellTyped(t)
    ensures Depth(List(Fields(t))) <= MAX_DEPTH
  {
    AccessDepth(t.access);
    DepthBound(AccessValues(t.access), 2);
    AuthorizationDepth(t.authorizations);
    DepthBound(AuthorizationValues(t.authorizations), 1);
    IntsFlat(t.fees);
    var x := Fields(t);
    forall i | 0 <= i < |x| ensures Depth(x[i]) <= 3 { assert x[i] in x; }
    DepthBound(x, 3);
  }

  lemma {:induction false} IntsFlat(ns: seq<nat>)
    ensures forall i :: 0 <= i < |IntValues(ns)| ==> Depth(IntValues(ns)[i]) == 0
  {
    if ns != [] { IntsFlat(ns[1..]); }
  }

  /** Two node transactions that match the same durable wire agree on the type and every signed field. */
  lemma SameWireSameFields(wire: seq<byte>, a: NodeTransaction, b: NodeTransaction)
    requires Verifies(wire, a) && Verifies(wire, b)
    ensures SignedFields(a) == SignedFields(b) && a.kind == b.kind && a.nonce == b.nonce && a.to == b.to
            && a.value == b.value && a.input == b.input
  {
    SignedFieldsWellTyped(a);
    SignedFieldsWellTyped(b);
    WireInjective(SignedFields(a).value, SignedFields(b).value);
  }
}
