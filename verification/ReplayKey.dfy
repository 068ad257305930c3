/**
 * Replay keys: the text that stands for one (chain, sender, nonce), and the validator in front of the
 * ledger that keeps two spellings of one nonce from passing as two keys.
 */
module ReplayKey {
  import opened Text

  datatype Kind = Eoa | EoaNoop | Solana | Erc4337 | Eip7702

  function KindText(kind: Kind): string {
    match kind
    case Eoa => "eoa"
    case EoaNoop => "eoa_noop"
    case Solana => "solana"
    case Erc4337 => "erc4337"
    case Eip7702 => "eip7702"
  }

  /** A 20-byte account address. */
  predicate IsAddress(a: seq<nat>) {
    |a| == 20 && forall i :: 0 <= i < |a| ==> a[i] < 256
  }

  /** `{:#x}` of an address. */
  function AddressText(a: seq<nat>): string
    requires IsAddress(a)
  {
    "0x" + seq(40, i requires 0 <= i < 40 => if i % 2 == 0 then Hex(a[i / 2] / 16) else Hex(a[i / 2] % 16))
  }

  function EvmKey(chain: nat, sender: seq<nat>, nonce: nat): string
    requires IsAddress(sender)
  {
    Join(["evm", Decimal(chain), AddressText(sender), Decimal(nonce)], ':')
  }

  function NoopId(chain: nat, sender: seq<nat>, nonce: nat): string
    requires IsAddress(sender)
  {
    Join(["__engine_noop", Decimal(chain), AddressText(sender), Decimal(nonce)], ':')
  }

  predicate CanonicalNumber(s: string) {
    var parsed := ParseU64(s);
    parsed.Some? && s == Decimal(parsed.value)
  }

  predicate CanonicalAddress(s: string) {
    |s| == 42 && s[0] == '0' && s[1] == 'x' && forall i :: 2 <= i < 42 ==> IsHex(s[i])
  }

  predicate StartsWith(s: string, prefix: string) { |prefix| <= |s| && s[..|prefix|] == prefix }

  /** The validator in front of every binding. */
  predicate ValidKey(kind: Kind, key: string) {
    0 < |key| <= 2048 &&
    if kind.Eoa? || kind.EoaNoop? then
      var fields := Split(key, ':');
      |fields| == 4 && fields[0] == "evm" && CanonicalNumber(fields[1]) && CanonicalNumber(fields[3])
      && CanonicalAddress(fields[2])
    else
      StartsWith(key, KindText(kind) + ":")
  }

  /** The chain a key belongs to: its second field. */
  function ChainOf(key: string): string {
    var fields := Split(key, ':');
    if |fields| < 2 then "" else fields[1]
  }

  // ----- the validator accepts exactly the printed triples -----

  lemma NoColon(n: nat)
    ensures ':' !in Decimal(n)
  {
    DecimalParses(n);
    forall i | 0 <= i < |Decimal(n)| ensures Decimal(n)[i] != ':' {
      assert IsDigit(Decimal(n)[i]);
    }
  }

  lemma AddressTextCanonical(a: seq<nat>)
    requires IsAddress(a)
    ensures CanonicalAddress(AddressText(a)) && ':' !in AddressText(a)
  {
    var s := AddressText(a);
    forall i | 2 <= i < 42 ensures IsHex(s[i]) { assert a[(i - 2) / 2] < 256; }
  }

  /** The bytes a canonical address text denotes. */
  function AddressBytes(s: string): (a: seq<nat>)
    requires CanonicalAddress(s)
  {
    seq(20, i requires 0 <= i < 20 => HexValue(s[2 + 2 * i]) * 16 + HexValue(s[3 + 2 * i]))
  }

  lemma AddressTextBytes(s: string)
    requires CanonicalAddress(s)
    ensures IsAddress(AddressBytes(s)) && AddressText(AddressBytes(s)) == s
  {
    var a := AddressBytes(s);
    forall i | 0 <= i < 20
      ensures a[i] < 256 && a[i] / 16 == HexValue(s[2 + 2 * i]) && a[i] % 16 == HexValue(s[3 + 2 * i])
    {
    }
    var t := AddressText(a);
    forall i | 0 <= i < 42 ensures t[i] == s[i] {
      if i >= 2 { assert s[i] == Hex(HexValue(s[i])); assert 2 + 2 * ((i - 2) / 2) + (i - 2) % 2 == i; }
    }
  }

  lemma HexInjective(a: nat, b: nat)
    requires a < 16 && b < 16 && Hex(a) == Hex(b)
    ensures a == b
  {}

  lemma AddressTextInjective(a: seq<nat>, b: seq<nat>)
    requires IsAddress(a) && IsAddress(b) && AddressText(a) == AddressText(b)
    ensures a == b
  {
    forall i | 0 <= i < 20 ensures a[i] == b[i] {
      assert AddressText(a)[2 + 2 * i] == Hex(a[i] / 16) && AddressText(b)[2 + 2 * i] == Hex(b[i] / 16);
      assert AddressText(a)[3 + 2 * i] == Hex(a[i] % 16) && AddressText(b)[3 + 2 * i] == Hex(b[i] % 16);
      HexInjective(a[i] / 16, b[i] / 16);
      HexInjective(a[i] % 16, b[i] % 16);
    }
  }

  lemma JoinFour(a: string, b: string, c: string, d: string)
    ensures Join([a, b, c, d], ':') == a + ":" + (b + ":" + (c + ":" + d))
  {
    assert Join([d], ':') == d && [c, d][1..] == [d];
    assert Join([c, d], ':') == c + ":" + d && [b, c, d][1..] == [c, d];
    assert Join([b, c, d], ':') == b + ":" + (c + ":" + d) && [a, b, c, d][1..] == [b, c, d];
  }

  lemma SplitFour(a: string, b: string, c: string, d: string)
    requires ':' !in a && ':' !in b && ':' !in c && ':' !in d
    ensures Split(Join([a, b, c, d], ':'), ':') == [a, b, c, d]
  {
    JoinFour(a, b, c, d);
    SplitPlain(d, ':');
    SplitFirst(c, d, ':');
    SplitFirst(b, c + ":" + d, ':');
    SplitFirst(a, b + ":" + (c + ":" + d), ':');
  }

  /** Printing a triple and splitting it again gives its four fields back. */
  lemma EvmKeyFields(chain: nat, sender: seq<nat>, nonce: nat)
    requires IsAddress(sender)
    ensures Split(EvmKey(chain, sender, nonce), ':') == ["evm", Decimal(chain), AddressText(sender), Decimal(nonce)]
  {
    NoColon(chain);
    NoColon(nonce);
    AddressTextCanonical(sender);
    SplitFour("evm", Decimal(chain), AddressText(sender), Decimal(nonce));
  }

  lemma EvmKeyLength(chain: nat, sender: seq<nat>, nonce: nat)
    requires IsAddress(sender) && chain <= U64_MAX && nonce <= U64_MAX
    ensures 0 < |EvmKey(chain, sender, nonce)| <= 2048
  {
    DecimalU64Length(chain);
    DecimalU64Length(nonce);
    JoinFour("evm", Decimal(chain), AddressText(sender), Decimal(nonce));
  }

  /** The validator accepts exactly the texts printed from some 64-bit chain, 20-byte address and 64-bit nonce. */
  lemma ValidKeyIffPrinted(kind: Kind, key: string)
    requires kind.Eoa? || kind.EoaNoop?
    ensures ValidKey(kind, key) <==>
            exists chain: nat, sender, nonce: nat ::
              chain <= U64_MAX && nonce <= U64_MAX && IsAddress(sender) && key == EvmKey(chain, sender, nonce)
  {
    if ValidKey(kind, key) {
      var fields := Split(key, ':');
      var chain, nonce := ParseU64(fields[1]).value, ParseU64(fields[3]).value;
      AddressTextBytes(fields[2]);
      JoinSplit(key, ':');
      assert fields == ["evm", Decimal(chain), AddressText(AddressBytes(fields[2])), Decimal(nonce)];
      assert key == EvmKey(chain, AddressBytes(fields[2]), nonce);
    }
    if chain: nat, sender, nonce: nat :|
      chain <= U64_MAX && nonce <= U64_MAX && IsAddress(sender) && key == EvmKey(chain, sender, nonce)
    {
      EvmKeyFields(chain, sender, nonce);
      EvmKeyLength(chain, sender, nonce);
      ParseDecimalU64(chain);
      ParseDecimalU64(nonce);
      AddressTextCanonical(sender);
    }
  }

  /** One text per triple, and one triple per text. */
  lemma EvmKeyInjective(c1: nat, s1: seq<nat>, n1: nat, c2: nat, s2: seq<nat>, n2: nat)
    requires IsAddress(s1) && IsAddress(s2)
    ensures EvmKey(c1, s1, n1) == EvmKey(c2, s2, n2) <==> (c1 == c2 && s1 == s2 && n1 == n2)
  {
    if EvmKey(c1, s1, n1) == EvmKey(c2, s2, n2) {
      EvmKeyFields(c1, s1, n1);
      EvmKeyFields(c2, s2, n2);
      var f, g := Split(EvmKey(c1, s1, n1), ':'), Split(EvmKey(c2, s2, n2), ':');
      assert f[1] == g[1] && f[2] == g[2] && f[3] == g[3];
      DecimalInjective(c1, c2);
      DecimalInjective(n1, n2);
      AddressTextInjective(s1, s2);
    }
  }

  lemma NoopIdInjective(c1: nat, s1: seq<nat>, n1: nat, c2: nat, s2: seq<nat>, n2: nat)
    requires IsAddress(s1) && IsAddress(s2)
    ensures NoopId(c1, s1, n1) == NoopId(c2, s2, n2) <==> (c1 == c2 && s1 == s2 && n1 == n2)
  {
    if NoopId(c1, s1, n1) == NoopId(c2, s2, n2) {
      forall c: nat, s, n: nat | IsAddress(s)
        ensures Split(NoopId(c, s, n), ':') == ["__engine_noop", Decimal(c), AddressText(s), Decimal(n)]
      {
        NoColon(c);
        NoColon(n);
        AddressTextCanonical(s);
        SplitFour("__engine_noop", Decimal(c), AddressText(s), Decimal(n));
      }
      var f, g := Split(NoopId(c1, s1, n1), ':'), Split(NoopId(c2, s2, n2), ':');
      assert f[1] == g[1] && f[2] == g[2] && f[3] == g[3];
      DecimalInjective(c1, c2);
      DecimalInjective(n1, n2);
      AddressTextInjective(s1, s2);
    }
  }

  /** The namespace a kind's keys live in; user intents and NOOPs share one. */
  function Family(kind: Kind): string {
    if kind.Eoa? || kind.EoaNoop? then "evm" else KindText(kind)
  }

  lemma FirstField(kind: Kind, key: string)
    requires ValidKey(kind, key)
    ensures Split(key, ':')[0] == Family(kind)
  {
    if !kind.Eoa? && !kind.EoaNoop? {
      var name := KindText(kind);
      assert key == name + ":" + key[|name| + 1..];
      SplitFirst(name, key[|name| + 1..], ':');
    }
  }

  /**
   * A key valid for two kinds means the kinds share a family: no Solana or account-abstraction key can shadow a
   * nonce.
   */
  lemma FamiliesDisjoint(k1: Kind, k2: Kind, key: string)
    requires ValidKey(k1, key) && ValidKey(k2, key)
    ensures Family(k1) == Family(k2)
    ensures k1 == k2 || {k1, k2} == {Eoa, EoaNoop}
  {
    FirstField(k1, key);
    FirstField(k2, key);
    assert forall k: Kind :: |KindText(k)| > 0;
    assert KindText(Solana)[0] == 's' && KindText(Erc4337)[1] == 'r' && KindText(Eip7702)[1] == 'i' && "evm"[1] == 'v';
    assert "evm"[0] == KindText(Erc4337)[0] == KindText(Eip7702)[0] == 'e';
  }
}
