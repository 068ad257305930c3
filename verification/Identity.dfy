/** Texts that stand for identities: admission fingerprints, checkpoint tokens and marker keys. */
module Identity {
  import opened Wrappers
  import opened Text
  import opened Json
  import opened ReplayKey
  import opened Ledger

  // ----- fingerprints -----

  lemma {:induction false} WithoutWellFormed(fields: seq<Field>, key: string)
    requires UniqueKeys(fields) && forall i :: 0 <= i < |fields| ==> WellFormed(fields[i].value)
    ensures UniqueKeys(Without(fields, key)) && forall i :: 0 <= i < |Without(fields, key)| ==>
              WellFormed(Without(fields, key)[i].value)
    ensures forall f :: f in Without(fields, key) <==> f in fields && f.key != key
  {
    if fields != [] { WithoutWellFormed(fields[1..], key); }
  }

  lemma IntentWellFormed(kind: Kind, payload: Json)
    requires WellFormed(payload)
    ensures WellFormed(Intent(kind, payload))
  {
    if payload.Obj? {
      WithoutWellFormed(payload.fields, "pregeneratedNonce");
      WithoutWellFormed(payload.fields, "nonce");
    }
  }

  /** Kinds print differently, and never with the separator. */
  lemma KindTexts(a: Kind, b: Kind)
    ensures KindText(a) == KindText(b) ==> a == b
    ensures forall i :: 0 <= i < |KindText(a)| ==> KindText(a)[i] != 0 as char
  {
    assert |KindText(Eoa)| == 3 && |KindText(EoaNoop)| == 8 && |KindText(Solana)| == 6 && |KindText(Erc4337)| == 7
           && |KindText(Eip7702)| == 7;
    assert KindText(Erc4337)[1] == 'r' && KindText(Eip7702)[1] == 'i';
  }

  lemma CutsDiffer(a: string, b: string, x: string, y: string, sep: char)
    requires |a| < |b| && forall i :: 0 <= i < |b| ==> b[i] != sep
    ensures a + [sep] + x != b + [sep] + y
  {
    assert (a + [sep] + x)[|a|] == sep && (b + [sep] + y)[|a|] == b[|a|];
  }

  /** Two texts cut by one separator that neither prefix contains agree in both parts. */
  lemma CutOnce(a: string, b: string, x: string, y: string, sep: char)
    requires a + [sep] + x == b + [sep] + y
    requires (forall i :: 0 <= i < |a| ==> a[i] != sep) && forall i :: 0 <= i < |b| ==> b[i] != sep
    ensures a == b && x == y
  {
    var s, t := a + [sep] + x, b + [sep] + y;
    if |a| < |b| { CutsDiffer(a, b, x, y, sep); }
    if |b| < |a| { CutsDiffer(b, a, y, x, sep); }
    assert a == s[..|a|] && b == t[..|b|];
    assert x == s[|a| + 1..] && y == t[|b| + 1..];
  }

  /**
   * A fingerprint identifies the kind and the intent: generated nonces and key order are invisible to it, and nothing
   * else is.
   */
  lemma FingerprintDecides(k1: Kind, p1: Json, k2: Kind, p2: Json)
    requires WellFormed(p1) && WellFormed(p2)
    ensures AdmissionFingerprint(k1, p1) == AdmissionFingerprint(k2, p2) <==>
              (k1 == k2 && SameValue(Intent(k1, p1), Intent(k2, p2)))
  {
    IntentWellFormed(k1, p1);
    IntentWellFormed(k2, p2);
    CanonicalDecides(Intent(k1, p1), Intent(k2, p2));
    if AdmissionFingerprint(k1, p1) == AdmissionFingerprint(k2, p2) {
      KindTexts(k1, k2);
      KindTexts(k2, k1);
      CutOnce(KindText(k1), KindText(k2), CanonicalText(Intent(k1, p1)), CanonicalText(Intent(k2, p2)), 0 as char);
    }
  }

  /**
   * A retry is the same intent, and gets the first payload back, exactly when its intent is the same value: the
   * generated nonce may differ, be missing or be new, and keys may come in any order. Any other retry conflicts,
   * and a quarantined id answers no retry.
   */
  lemma ExcludedNonceIsNotConflict(l: Ledger, kind: Kind, id: string, retry: Json)
    requires id in l.admissions && l.admissions[id].kind == kind
    requires WellFormed(l.admissions[id].payload) && WellFormed(retry)
    requires l.admissions[id].fingerprint == AdmissionFingerprint(kind, l.admissions[id].payload)
    ensures var row := l.admissions[id];
            var reply := TxReserve(l, kind, id, AdmissionFingerprint(kind, retry), retry).reply;
            if !SameValue(Intent(kind, row.payload), Intent(kind, retry)) then reply == Failure(Conflict)
            else if row.state.Quarantined? then reply == Failure(RecoveryRequired)
            else reply == Success(Reserved(row.payload, row.state.Terminal?))
  {
    hide AdmissionFingerprint, Intent, SameValue, WellFormed;
    FingerprintDecides(kind, l.admissions[id].payload, kind, retry);
  }

  // ----- tokens and marker keys -----

  /** The token as it is written to Redis. */
  function TokenText(t: Token): string {
    Join(["v" + Decimal(t.schema), t.deployment, Decimal(t.epoch), Decimal(t.checkpoint)], ':')
  }

  lemma TokenFields(t: Token)
    requires ':' !in t.deployment
    ensures Split(TokenText(t), ':') == ["v" + Decimal(t.schema), t.deployment, Decimal(t.epoch), Decimal(t.checkpoint)]
  {
    NoColon(t.schema);
    NoColon(t.epoch);
    NoColon(t.checkpoint);
    SplitFour("v" + Decimal(t.schema), t.deployment, Decimal(t.epoch), Decimal(t.checkpoint));
  }

  /** Deployment ids hold no colon, so one text is one token. */
  lemma TokenTextInjective(a: Token, b: Token)
    requires ':' !in a.deployment && ':' !in b.deployment
    ensures TokenText(a) == TokenText(b) <==> a == b
  {
    if TokenText(a) == TokenText(b) {
      TokenFields(a);
      TokenFields(b);
      var x, y := Split(TokenText(a), ':'), Split(TokenText(b), ':');
      assert x[0] == y[0] && x[1] == y[1] && x[2] == y[2] && x[3] == y[3];
      assert ("v" + Decimal(a.schema))[1..] == Decimal(a.schema) && ("v" + Decimal(b.schema))[1..] == Decimal(b.schema);
      DecimalInjective(a.schema, b.schema);
      DecimalInjective(a.epoch, b.epoch);
      DecimalInjective(a.checkpoint, b.checkpoint);
    }
  }

  /**
   * Two namespaces share a marker key exactly when they are equal, or one is the default and the other is named
   * "engine".
   */
  lemma MarkerKeyAliases(a: Option<string>, b: Option<string>)
    ensures MarkerKey(a) == MarkerKey(b) <==>
              (a == b || (a == None && b == Some("engine")) || (a == Some("engine") && b == None))
  {
    var suffix := ":recovery:checkpoint";
    var x, y := if a.Some? then a.value else "engine", if b.Some? then b.value else "engine";
    assert MarkerKey(a) == x + suffix && MarkerKey(b) == y + suffix;
    if MarkerKey(a) == MarkerKey(b) {
      assert x == (x + suffix)[..|x|] && y == (y + suffix)[..|y|];
    }
  }
}
