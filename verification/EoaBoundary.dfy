/**
 * The last boundary before an EVM transaction is broadcast. Replay keys are derived from the signed wire, for
 * user intents and for the engine's own NOOPs alike, so the journal's guarantee becomes one about nonces.
 */
module EoaBoundary {
  import opened Wrappers
  import opened Text
  import opened Json
  import opened ReplayKey
  import opened Ledger
  import opened LedgerInvariant
  import opened Protocol
  import opened ProtocolInvariant
  import opened Runs
  import opened Journal
  import opened Settlement
  import opened TransactionRequest

  /** What a transaction does, apart from its gas limit and fees. */
  datatype Transaction = Transaction(
    chainId: Option<nat>, to: Option<Address>, value: nat, input: seq<nat>, authorizations: seq<Authorization>,
    nonce: nat)

  /** A signed transaction: its encoded wire, the hash cached beside it, and the address its signature recovers to. */
  datatype Signed = Signed(tx: Transaction, wire: seq<nat>, cachedHash: string, signer: Option<Address>)

  /** Keccak-256 of a wire, as text. */
  type Keccak = seq<nat> -> string

  function AttemptJson(s: Signed, chain: nat, sender: Address): Json {
    Obj([Field("transactionHash", Str(s.cachedHash)), Field("chainId", Num(chain)),
         Field("sender", Str(AddressText(sender))),
         Field("nonce", Num(s.tx.nonce)), Field("signedTransaction", Str("0x" + HexText(s.wire)))])
  }

  function NoopPayload(chain: nat, sender: Address, nonce: nat): Json {
    Obj([Field("chainId", Num(chain)), Field("sender", Str(AddressText(sender))), Field("nonce", Num(nonce))])
  }

  /** The wire is exactly the admitted request, signed by its sender. */
  predicate ValidEoaWire(keccak: Keccak, req: EoaRequest, s: Signed) {
    && keccak(s.wire) == s.cachedHash
    && s.tx.chainId == Some(req.chainId) && s.tx.to == req.to && s.tx.value == req.value && s.tx.input == req.data
    && s.tx.authorizations == Expected(req)
    && s.signer == Some(req.from)
  }

  /** A NOOP sends nothing to its own sender. */
  predicate ValidNoopWire(keccak: Keccak, chain: nat, sender: Address, s: Signed) {
    && keccak(s.wire) == s.cachedHash
    && s.tx.chainId == Some(chain) && s.tx.to == Some(sender) && s.tx.value == 0 && s.tx.input == []
    && s.tx.authorizations == []
    && s.signer == Some(sender)
  }

  /** A row read back under its kind. */
  function Lookup(l: Ledger, kind: Kind, id: string): Result<Option<Admission>, Error> {
    if id !in l.admissions then Success(None)
    else if l.admissions[id].kind != kind then Failure(Conflict)
    else Success(Some(l.admissions[id]))
  }

  /** The id is admitted under this kind as this payload. */
  predicate AdmittedAs(l: Ledger, kind: Kind, id: string, payload: Json) {
    && id in l.admissions && l.admissions[id].kind == kind
    && CanonicalText(l.admissions[id].payload) == CanonicalText(payload)
  }

  lemma AdmittedStays(lib: Libraries, states: seq<World>, events: seq<Event>, i: nat, j: nat, kind: Kind, id: string,
                      payload: Json)
    requires SafeRun(lib, states, events) && i < |states| && j < |states|
    requires AdmittedAs(states[i].ledger, kind, id, payload) && id in states[j].ledger.admissions
    ensures AdmittedAs(states[j].ledger, kind, id, payload)
  {
    hide SafeRun, CanonicalText;
    if i <= j { AdmissionLifeCycle(lib, states, events, i, j, id); }
    else { AdmissionLifeCycle(lib, states, events, j, i, id); }
  }

  lemma AdmittedLater(lib: Libraries, states: seq<World>, events: seq<Event>, i: nat, j: nat, kind: Kind, id: string,
                      payload: Json)
    requires SafeRun(lib, states, events) && i <= j < |states| && AdmittedAs(states[i].ledger, kind, id, payload)
    ensures AdmittedAs(states[j].ledger, kind, id, payload)
  {
    hide SafeRun, CanonicalText;
    AdmissionLifeCycle(lib, states, events, i, j, id);
  }

  /** `validate_admission`: behind a healthy gate, the id was found open under this fingerprint. */
  method ValidateAdmission(journal: RecoveryJournal, kind: Kind, id: string, fingerprint: Digest)
    returns (r: Result<(), Error>, at: nat)
    requires journal.Valid() && journal.Now().pc.Idle?
    modifies journal
    ensures journal.Valid() && journal.Now().pc.Idle? && old(journal.trace) <= journal.trace
    ensures r.Success? ==>
      && |old(journal.trace)| - 1 <= at < |journal.trace| && id in journal.trace[at].ledger.admissions
      && var row := journal.trace[at].ledger.admissions[id];
         row.kind == kind && row.state.Admitted? && row.fingerprint == fingerprint
  {
    hide SafeRun, Convergence.SameRecord;
    at := 0;
    r := journal.EnsureHealthy();
    if r.Failure? { return; }
    var l;
    l, at := Read(journal, |journal.trace| - 1);
    var record := Lookup(l, kind, id);
    if record.Failure? { r := Failure(record.error); return; }
    if record.value.None? { r := Failure(RecoveryRequired); return; }
    if record.value.value.fingerprint != fingerprint { r := Failure(Conflict); return; }
    if !record.value.value.state.Admitted? { r := Failure(RecoveryRequired); return; }
  }

  /** `validate_payload`: the admission is this very payload, and was open when it was looked at. */
  method ValidatePayload(journal: RecoveryJournal, kind: Kind, id: string, payload: Json)
    returns (r: Result<(), Error>, at: nat)
    requires journal.Valid() && journal.Now().pc.Idle?
    modifies journal
    ensures journal.Valid() && journal.Now().pc.Idle? && old(journal.trace) <= journal.trace
    ensures r.Success? ==>
      && |old(journal.trace)| - 1 <= at < |journal.trace|
      && AdmittedAs(journal.trace[at].ledger, kind, id, payload)
      && journal.trace[at].ledger.admissions[id].state.Admitted?
      && journal.trace[at].ledger.admissions[id].fingerprint == AdmissionFingerprint(kind, payload)
    ensures r.Success? ==> AdmittedAs(journal.ledger, kind, id, payload)
  {
    hide SafeRun, CanonicalText, Fits, Intent, AdmissionFingerprint;
    at := 0;
    if !Fits(Intent(kind, payload)) { r := Failure(Invalid); return; }
    r, at := ValidateAdmission(journal, kind, id, AdmissionFingerprint(kind, payload));
    if r.Failure? { return; }
    var l, again := Read(journal, at);
    var record := Lookup(l, kind, id);
    if record.Failure? { r := Failure(record.error); return; }
    if record.value.None? { r := Failure(RecoveryRequired); return; }
    if CanonicalText(record.value.value.payload) != CanonicalText(payload) { r := Failure(Conflict); return; }
    AdmittedStays(journal.lib, journal.trace, journal.events, again, at, kind, id, payload);
    AdmittedLater(journal.lib, journal.trace, journal.events, again, |journal.trace| - 1, kind, id, payload);
  }

  /** The grant recorded for one signed wire. */
  function WireGrant(id: string, chain: nat, sender: Address, s: Signed): Grant {
    Ordinary(id, EvmKey(chain, sender, s.tx.nonce), AttemptJson(s, chain, sender))
  }

  /** A signed wire on its way to the network: of a user's request, or of a NOOP that fills a nonce. */
  datatype Wire = User(request: EoaRequest, s: Signed) | Noop(id: string, chain: nat, sender: Address, s: Signed)

  function IdOf(w: Wire): string { if w.User? then w.request.transactionId else w.id }
  function ChainIdOf(w: Wire): nat { if w.User? then w.request.chainId else w.chain }
  function SenderOf(w: Wire): Address { if w.User? then w.request.from else w.sender }

  /** The wire is exactly what its id was admitted for. */
  predicate Matches(keccak: Keccak, l: Ledger, w: Wire) {
    match w
    case User(request, s) =>
      ValidEoaWire(keccak, request, s) && AdmittedAs(l, Eoa, request.transactionId, RequestJson(request))
    case Noop(id, chain, sender, s) =>
      && ValidNoopWire(keccak, chain, sender, s) && id == NoopId(chain, sender, s.tx.nonce)
      && AdmittedAs(l, EoaNoop, id, NoopPayload(chain, sender, s.tx.nonce))
  }

  /** The journal has granted this wire, and the wire is what its id was admitted for. */
  predicate PermittedWire(keccak: Keccak, w: World, x: Wire) {
    Matches(keccak, w.ledger, x) && WireGrant(IdOf(x), ChainIdOf(x), SenderOf(x), x.s) in w.grants
  }

  /** A user intent may be broadcast only as its admitted request, under the key of its own signed nonce. */
  method BeforeEoa(journal: RecoveryJournal, keccak: Keccak, request: EoaRequest, s: Signed)
    returns (r: Result<(), Error>)
    requires journal.Valid() && journal.Now().pc.Idle?
    modifies journal
    ensures journal.Valid() && journal.Now().pc.Idle? && old(journal.trace) <= journal.trace
    ensures r.Success? ==>
      && PermittedWire(keccak, journal.Now(), User(request, s))
      && Permitted(journal.ledger, WireGrant(request.transactionId, request.chainId, request.from, s))
      && journal.Now().grants[|journal.Now().grants| - 1] ==
        WireGrant(request.transactionId, request.chainId, request.from, s)
  {
    hide SafeRun, Permitted, Convergence.OnceOnly, AdmittedAs, EvmKey, AttemptJson, RequestJson;
    var id, payload := request.transactionId, RequestJson(request);
    var at;
    r, at := ValidatePayload(journal, Eoa, id, payload);
    if r.Failure? { return; }
    if !ValidEoaWire(keccak, request, s) { return Failure(RecoveryRequired); }
    ghost var validated := |journal.trace| - 1;
    OtherWorkers(journal);
    var key := EvmKey(request.chainId, request.from, s.tx.nonce);
    r := journal.BeforeBroadcast(Eoa, id, key, AttemptJson(s, request.chainId, request.from));
    AdmittedLater(journal.lib, journal.trace, journal.events, validated, |journal.trace| - 1, Eoa, id, payload);
  }

  /** Reserve a nonce for a NOOP under an id derived from that nonce. */
  method ReserveNoop(journal: RecoveryJournal, chain: nat, sender: Address, nonce: nat)
    returns (r: Result<string, Error>)
    requires journal.Valid() && journal.Now().pc.Idle?
    modifies journal
    ensures journal.Valid() && journal.Now().pc.Idle? && old(journal.trace) <= journal.trace
    ensures r.Success? ==>
      && r.value == NoopId(chain, sender, nonce)
      && r.value in journal.ledger.admissions && journal.ledger.admissions[r.value].kind == EoaNoop
      && journal.ledger.admissions[r.value].state.Admitted?
      && !TakenByOther(journal.ledger.admissions, r.value, EvmKey(chain, sender, nonce))
  {
    hide SafeRun, Convergence.OnceOnly, CanonicalText, EvmKey, NoopId, NoopPayload;
    var id, payload := NoopId(chain, sender, nonce), NoopPayload(chain, sender, nonce);
    var reserved := journal.ReserveAdmission(EoaNoop, id, AdmissionFingerprint(EoaNoop, payload), payload);
    if reserved.Failure? { return Failure(reserved.error); }
    if reserved.value.1 { return Failure(RecoveryRequired); }
    OtherWorkers(journal);
    var bound := journal.ValidateReplayBinding(EoaNoop, id, EvmKey(chain, sender, nonce));
    if bound.Failure? { return Failure(bound.error); }
    r := Success(id);
  }

  /** A NOOP may be broadcast only under the id and key of its own signed nonce. */
  method BeforeNoop(journal: RecoveryJournal, keccak: Keccak, id: string, chain: nat, sender: Address, s: Signed)
    returns (r: Result<(), Error>)
    requires journal.Valid() && journal.Now().pc.Idle?
    modifies journal
    ensures journal.Valid() && journal.Now().pc.Idle? && old(journal.trace) <= journal.trace
    ensures r.Success? ==>
      && PermittedWire(keccak, journal.Now(), Noop(id, chain, sender, s))
      && Permitted(journal.ledger, WireGrant(id, chain, sender, s))
      && journal.Now().grants[|journal.Now().grants| - 1] == WireGrant(id, chain, sender, s)
  {
    hide SafeRun, Permitted, Convergence.OnceOnly, AdmittedAs, EvmKey, AttemptJson, NoopId, NoopPayload;
    if !ValidNoopWire(keccak, chain, sender, s) { return Failure(RecoveryRequired); }
    if id != NoopId(chain, sender, s.tx.nonce) { return Failure(RecoveryRequired); }
    var payload := NoopPayload(chain, sender, s.tx.nonce);
    var at;
    r, at := ValidatePayload(journal, EoaNoop, id, payload);
    if r.Failure? { return; }
    ghost var validated := |journal.trace| - 1;
    OtherWorkers(journal);
    r := journal.BeforeBroadcast(EoaNoop, id, EvmKey(chain, sender, s.tx.nonce), AttemptJson(s, chain, sender));
    AdmittedLater(journal.lib, journal.trace, journal.events, validated, |journal.trace| - 1, EoaNoop, id, payload);
  }

  /**
   * Over every run, whatever crashes, is lost, is reattached or recovered: two permitted wires belong to the
   * same intent exactly when they carry the same chain, sender and nonce. So a nonce has at most one intent,
   * user or NOOP, and an intent has one nonce.
   */
  lemma OneIntentPerNonce(lib: Libraries, states: seq<World>, events: seq<Event>, i: nat, j: nat,
                          id1: string, c1: nat, s1: Address, w1: Signed, id2: string, c2: nat, s2: Address, w2: Signed)
    requires SafeRun(lib, states, events) && i < |states| && j < |states|
    requires WireGrant(id1, c1, s1, w1) in states[i].grants && WireGrant(id2, c2, s2, w2) in states[j].grants
    ensures id1 == id2 <==> (c1 == c2 && s1 == s2 && w1.tx.nonce == w2.tx.nonce)
  {
    var k1, k2 := EvmKey(c1, s1, w1.tx.nonce), EvmKey(c2, s2, w2.tx.nonce);
    var m := if i < j then j else i;
    EvmKeyInjective(c1, s1, w1.tx.nonce, c2, s2, w2.tx.nonce);
    hide SafeRun, EvmKey, AttemptJson, Recorded;
    GrantBound(lib, states, events, i, m, WireGrant(id1, c1, s1, w1), k1);
    GrantBound(lib, states, events, j, m, WireGrant(id2, c2, s2, w2), k2);
    if k1 == k2 {
      OneIntentPerKey(lib, states, events, i, j, WireGrant(id1, c1, s1, w1), WireGrant(id2, c2, s2, w2), k1);
    }
  }

  /** Two wires of one id, matched against the ledger at any two times, do the same thing. */
  lemma MatchesAgree(lib: Libraries, states: seq<World>, events: seq<Event>, keccak: Keccak, i: nat, j: nat, x: Wire,
                     y: Wire)
    requires SafeRun(lib, states, events) && i <= j < |states|
    requires Matches(keccak, states[i].ledger, x) && Matches(keccak, states[j].ledger, y) && IdOf(x) == IdOf(y)
    ensures x.User? == y.User? && x.s.tx.(nonce := 0) == y.s.tx.(nonce := 0) && x.s.signer == y.s.signer
  {
    hide SafeRun, CanonicalText, RequestJson, NoopPayload, NoopId, Expected, AttemptsOf;
    AdmissionLifeCycle(lib, states, events, i, j, IdOf(x));
    if x.User? { RequestJsonInjective(x.request, y.request); }
    else { NoopIdInjective(x.chain, x.sender, x.s.tx.nonce, y.chain, y.sender, y.s.tx.nonce); }
  }

  /**
   * Over every run: all wires the boundary ever permits for one chain, sender and nonce, and all it permits for
   * one id, are the same transaction. Chain, sender, nonce, recipient, value, data and authorizations agree, so
   * a rebroadcast can change only gas and fees, and a nonce is never spent both on a user intent and on a NOOP.
   */
  lemma OneTransactionPerNonce(lib: Libraries, states: seq<World>, events: seq<Event>, keccak: Keccak, i: nat, j: nat,
                               x: Wire, y: Wire)
    requires SafeRun(lib, states, events) && i < |states| && j < |states|
    requires PermittedWire(keccak, states[i], x) && PermittedWire(keccak, states[j], y)
    requires IdOf(x) == IdOf(y)
             || (ChainIdOf(x) == ChainIdOf(y) && SenderOf(x) == SenderOf(y) && x.s.tx.nonce == y.s.tx.nonce)
    ensures IdOf(x) == IdOf(y) && x.User? == y.User? && x.s.tx == y.s.tx && x.s.signer == y.s.signer
  {
    hide SafeRun, Matches, WireGrant;
    OneIntentPerNonce(lib, states, events, i, j, IdOf(x), ChainIdOf(x), SenderOf(x), x.s, IdOf(y), ChainIdOf(y),
                      SenderOf(y), y.s);
    if i <= j { MatchesAgree(lib, states, events, keccak, i, j, x, y); }
    else { MatchesAgree(lib, states, events, keccak, j, i, y, x); }
  }

  // ----- projections of settled intents (executors/src/finality.rs) -----

  /**
   * The winner's hash of a settled intent, taken from its first witness: always the hash of one of the id's own
   * durable attempts, under the reserved nonce, and only for the admitted request.
   */
  method TerminalEoaProjection(journal: RecoveryJournal, request: EoaRequest, nonce: nat)
    returns (r: Result<Option<nat>, Error>)
    requires journal.Valid() && journal.Now().pc.Idle?
    modifies journal
    ensures journal.Valid() && journal.Now().pc.Idle? && old(journal.trace) <= journal.trace
    ensures r.Success? ==> AdmittedAs(journal.ledger, Eoa, request.transactionId, RequestJson(request))
    ensures r.Success? && r.value.Some? ==>
      && IsTerminal(journal.ledger.admissions, request.transactionId)
      && HashAttempted(journal.lib, journal.ledger, request.transactionId,
                       EvmKey(request.chainId, request.from, nonce), r.value)
  {
    hide SafeRun, CanonicalText, EvmKey, RequestJson, HashAttempted;
    var id, payload := request.transactionId, RequestJson(request);
    var healthy := journal.EnsureHealthy();
    if healthy.Failure? { return Failure(healthy.error); }
    var l, at := Read(journal, |journal.trace| - 1);
    var admission := Lookup(l, Eoa, id);
    if admission.Failure? { return Failure(admission.error); }
    if admission.value.None? || CanonicalText(admission.value.value.payload) != CanonicalText(payload)
       || admission.value.value.state.Quarantined? {
      return Failure(RecoveryRequired);
    }
    ghost var checked := at;
    l, at := Read(journal, at);
    admission := Lookup(l, Eoa, id);
    if admission.Failure? { return Failure(admission.error); }
    if admission.value.None? { return Failure(RecoveryRequired); }
    if !admission.value.value.state.Terminal? {
      AdmittedLater(journal.lib, journal.trace, journal.events, checked, |journal.trace| - 1, Eoa, id, payload);
      return Success(None);
    }
    if admission.value.value.replayKey != Some(EvmKey(request.chainId, request.from, nonce)) {
      return Failure(RecoveryRequired);
    }
    r := ReadProjection(journal, request.chainId, id, EvmKey(request.chainId, request.from, nonce), at);
    AdmittedLater(journal.lib, journal.trace, journal.events, checked, |journal.trace| - 1, Eoa, id, payload);
  }

  /** Some attempt of the id, under the key, has this transaction hash. */
  predicate HashAttempted(lib: Libraries, l: Ledger, id: string, key: string, hash: Option<nat>) {
    exists row :: row in l.attempts && row.id == id && row.replayKey == key
                  && FieldHash(lib, row.payload, "transactionHash") == hash
  }

  lemma HashStaysAttempted(lib: Libraries, states: seq<World>, events: seq<Event>, i: nat, j: nat, id: string,
                           key: string, hash: Option<nat>)
    requires SafeRun(lib, states, events) && i <= j < |states| && HashAttempted(lib, states[i].ledger, id, key, hash)
    ensures HashAttempted(lib, states[j].ledger, id, key, hash)
  {
    hide SafeRun, FieldHash, AdmissionsGrow, CheckpointsGrow, SolanaGrows;
    RunTables(lib, states, events, i, j);
    var a, b := states[i].ledger.attempts, states[j].ledger.attempts;
    var row :| row in a && row.id == id && row.replayKey == key
      && FieldHash(lib, row.payload, "transactionHash") == hash;
    assert row in b[..|a|];
  }

  method ReadProjection(journal: RecoveryJournal, chain: nat, id: string, key: string, reserved: nat)
    returns (r: Result<Option<nat>, Error>)
    requires journal.Valid() && journal.Now().pc.Idle? && reserved < |journal.trace|
    requires Holds(journal.trace[reserved].ledger.admissions, id, key)
             && journal.trace[reserved].ledger.admissions[id].kind == Eoa
    modifies journal
    ensures journal.Valid() && journal.Now().pc.Idle? && old(journal.trace) <= journal.trace
    ensures r.Success? && r.value.Some? ==>
      IsTerminal(journal.ledger.admissions, id) && HashAttempted(journal.lib, journal.ledger, id, key, r.value)
  {
    hide SafeRun, HashAttempted, FirstWitness, FieldHash, FieldU64, FieldText, AttemptsOf;
    var l, at := Read(journal, reserved);
    if !IsTerminalRow(l, id) { return Failure(RecoveryRequired); }
    var proof := FirstWitness(l.evidence, id);
    if proof.None? { return Failure(Storage); }
    if FieldU64(proof.value, "chainId") != Some(chain) { return Failure(RecoveryRequired); }
    var text := FieldText(proof.value, "transactionHash");
    if text.None? { return Failure(RecoveryRequired); }
    var hash := journal.lib.hash(Str(text.value));
    if hash.None? { return Failure(RecoveryRequired); }
    AdmissionLifeCycle(journal.lib, journal.trace, journal.events, at, |journal.trace| - 1, id);
    FirstWitnessNeverReplaced(journal.lib, journal.trace, journal.events, at, |journal.trace| - 1, id);
    WitnessHashIsAttempt(journal.lib, journal.trace, journal.events, reserved, id, key, proof.value);
    HashOfText(journal.lib, proof.value, text.value);
    r := Success(hash);
  }

  lemma HashOfText(lib: Libraries, proof: Json, text: string)
    requires FieldText(proof, "transactionHash") == Some(text)
    ensures FieldHash(lib, proof, "transactionHash") == lib.hash(Str(text))
  {}

  predicate IsTerminalRow(l: Ledger, id: string) { id in l.admissions && l.admissions[id].state.Terminal? }

  lemma FirstWitnessHash(lib: Libraries, l: Ledger, id: string, key: string, proof: Json)
    requires TablesOk(lib, l) && Holds(l.admissions, id, key) && l.admissions[id].kind == Eoa
    requires FirstWitness(l.evidence, id) == Some(proof)
    ensures HashAttempted(lib, l, id, key, FieldHash(lib, proof, "transactionHash"))
  {
    var n :| 0 <= n < |l.evidence| && l.evidence[n].id == id && l.evidence[n].evidence == proof
      && forall m :: 0 <= m < n ==> l.evidence[m].id != id;
    assert l.evidence[n] in l.evidence;
    hide FirstWitness, KeysUnique, DigestsUnique, BoundOk, WitnessOk, SolanaOk;
    assert BackedBy(lib, l.admissions, l.attempts, l.evidence[n]);
    var row :| row in l.attempts && row.id == id && MatchAttempt(lib, Eoa, key, proof, row.payload) == Success(true);
    assert RowOk(l.admissions, row);
  }

  /**
   * In every state, the first witness of an EVM id carries the hash of an attempt recorded under the key the id was
   * bound to.
   */
  lemma WitnessHashIsAttempt(lib: Libraries, states: seq<World>, events: seq<Event>, i: nat, id: string, key: string,
                             proof: Json)
    requires SafeRun(lib, states, events) && i < |states|
    requires Holds(states[i].ledger.admissions, id, key) && states[i].ledger.admissions[id].kind == Eoa
    requires FirstWitness(states[|states| - 1].ledger.evidence, id) == Some(proof)
    ensures HashAttempted(lib, states[|states| - 1].ledger, id, key, FieldHash(lib, proof, "transactionHash"))
  {
    hide SafeRun, AttemptsOf, TablesOk, ControlOk, FirstWitness, HashAttempted, FieldHash;
    AdmissionLifeCycle(lib, states, events, i, |states| - 1, id);
    KeyOwnerNeverChanges(lib, states, events, i, |states| - 1, id, id, key);
    RunInv(lib, states, events, |states| - 1);
    FirstWitnessHash(lib, states[|states| - 1].ledger, id, key, proof);
  }

  function ConfirmationJson(chain: nat, hash: Json): Json {
    Obj([Field("chainId", Num(chain)), Field("transactionHash", hash)])
  }

  lemma ConfirmedAttempt(lib: Libraries, states: seq<World>, events: seq<Event>, i: nat, j: nat, id: string,
                         key: string, chain: nat, hash: Json)
    requires SafeRun(lib, states, events) && i <= j < |states| && Holds(states[i].ledger.admissions, id, key)
    requires Split(key, ':')[0] == "evm"
    requires var l := states[j].ledger;
             id in l.admissions
             && ValidateIdentity(lib, l, id, l.admissions[id], ConfirmationJson(chain, hash)).Success?
    ensures var l := states[j].ledger;
            Holds(l.admissions, id, key) && lib.hash(hash).Some? && HashAttempted(lib, l, id, key, lib.hash(hash))
  {
    var l := states[j].ledger;
    hide SafeRun;
    KeyOwnerNeverChanges(lib, states, events, i, j, id, id, key);
    EvmKeysAreEoa(lib, states, events, j, id, key);
    var w := Witness(id, ConfirmationJson(chain, hash));
    ConfirmationHash(chain, hash);
    IdentityBacks(lib, l, w);
    hide ValidateIdentity, ConfirmationJson, Get;
    var row :| row in l.attempts && row.id == id
      && MatchAttempt(lib, l.admissions[id].kind, key, w.evidence, row.payload) == Success(true);
    assert row.replayKey == key by { assert Holds(l.admissions, row.id, row.replayKey); }
  }

  lemma BoundKeyValid(lib: Libraries, l: Ledger, id: string, key: string)
    requires Inv(lib, l) && Holds(l.admissions, id, key)
    ensures ValidKey(l.admissions[id].kind, key)
  {
    hide ControlOk, KeysUnique, AttemptsOk, DigestsUnique, WitnessOk, SolanaOk, Backed, ValidKey;
    assert AdmissionOk(l.admissions[id], l.attempts, id);
  }

  lemma EvmKeyKind(kind: Kind, key: string)
    requires ValidKey(kind, key) && Split(key, ':')[0] == "evm"
    ensures kind.Eoa? || kind.EoaNoop?
  {
    hide ValidKey, Split;
    FirstField(kind, key);
    assert |KindText(Solana)| == 6 && |KindText(Erc4337)| == 7 && |KindText(Eip7702)| == 7 && |"evm"| == 3;
  }

  /** Only user intents and NOOPs can be bound to an EVM key. */
  lemma EvmKeysAreEoa(lib: Libraries, states: seq<World>, events: seq<Event>, j: nat, id: string, key: string)
    requires SafeRun(lib, states, events) && j < |states|
    requires Holds(states[j].ledger.admissions, id, key) && Split(key, ':')[0] == "evm"
    ensures states[j].ledger.admissions[id].kind.Eoa? || states[j].ledger.admissions[id].kind.EoaNoop?
  {
    hide SafeRun, TablesOk, ControlOk, ValidKey, Split;
    RunInv(lib, states, events, j);
    BoundKeyValid(lib, states[j].ledger, id, key);
    EvmKeyKind(states[j].ledger.admissions[id].kind, key);
  }

  lemma ConfirmationHash(chain: nat, hash: Json)
    ensures Get(ConfirmationJson(chain, hash), "transactionHash") == Some(hash)
  {
    var fields := ConfirmationJson(chain, hash).fields;
    assert |"chainId"| == 7 && |"transactionHash"| == 15;
    assert fields[1..] == [Field("transactionHash", hash)];
    assert Find(fields[1..], "transactionHash") == Some(hash);
  }

  /** `validate_attempt_identity`: behind a healthy gate, the identity was found among the id's own attempts. */
  method ValidateAttemptIdentity(journal: RecoveryJournal, kind: Kind, id: string, identity: Json)
    returns (r: Result<(), Error>, at: nat)
    requires journal.Valid() && journal.Now().pc.Idle?
    modifies journal
    ensures journal.Valid() && journal.Now().pc.Idle? && old(journal.trace) <= journal.trace
    ensures r.Success? ==>
      && |old(journal.trace)| - 1 <= at < |journal.trace|
      && var l := journal.trace[at].ledger;
         id in l.admissions && l.admissions[id].kind == kind
         && ValidateIdentity(journal.lib, l, id, l.admissions[id], identity).Success?
  {
    hide SafeRun, ValidateIdentity, Convergence.SameRecord;
    at := 0;
    r := journal.EnsureHealthy();
    if r.Failure? { return; }
    var l;
    l, at := Read(journal, |journal.trace| - 1);
    var record := Lookup(l, kind, id);
    if record.Failure? { r := Failure(record.error); return; }
    if record.value.None? { r := Failure(RecoveryRequired); return; }
    r := ValidateIdentity(journal.lib, l, id, record.value.value, identity);
  }

  /** A confirmation counts only for a hash among the id's own durable attempts, under the reserved wallet and nonce. */
  method ValidateEoaConfirmation(journal: RecoveryJournal, kind: Kind, id: string, chain: nat, sender: Address,
                                 nonce: nat, hash: Json) returns (r: Result<(), Error>)
    requires journal.Valid() && journal.Now().pc.Idle?
    modifies journal
    ensures journal.Valid() && journal.Now().pc.Idle? && old(journal.trace) <= journal.trace
    ensures r.Success? ==>
      && Holds(journal.ledger.admissions, id, EvmKey(chain, sender, nonce)) && journal.lib.hash(hash).Some?
      && HashAttempted(journal.lib, journal.ledger, id, EvmKey(chain, sender, nonce), journal.lib.hash(hash))
  {
    hide SafeRun, EvmKey, ValidateIdentity, ConfirmationJson, HashAttempted, Split, Convergence.SameRecord;
    var l, at := Read(journal, |journal.trace| - 1);
    var record := Lookup(l, kind, id);
    if record.Failure? { return Failure(record.error); }
    if record.value.None? || record.value.value.replayKey != Some(EvmKey(chain, sender, nonce)) {
      return Failure(RecoveryRequired);
    }
    ghost var reserved := at;
    OtherWorkers(journal);
    r, at := ValidateAttemptIdentity(journal, kind, id, ConfirmationJson(chain, hash));
    if r.Success? {
      EvmKeyFields(chain, sender, nonce);
      ConfirmedAttempt(journal.lib, journal.trace, journal.events, reserved, at, id, EvmKey(chain, sender, nonce),
                       chain, hash);
      KeyOwnerNeverChanges(journal.lib, journal.trace, journal.events, reserved, |journal.trace| - 1, id, id,
                           EvmKey(chain, sender, nonce));
      HashStaysAttempted(journal.lib, journal.trace, journal.events, at, |journal.trace| - 1, id,
                         EvmKey(chain, sender, nonce), journal.lib.hash(hash));
    }
  }
}
