/**
 * Settlement shared by the EVM executors: continuity of earlier checkpoints, the bounded compare-and-swap of a
 * new one, and the terminal evidence it leads to. Other workers may run any operations between two awaits.
 */
module Settlement {
  import opened Wrappers
  import opened Text
  import opened Json
  import opened ReplayKey
  import opened Ledger
  import opened Protocol
  import opened Runs
  import opened Journal
  import F = Finality

  const CAS_ATTEMPTS := 3

  /** Any number of operations of other workers on the same journal. */
  method OtherWorkers(journal: RecoveryJournal)
    requires journal.Valid() && journal.Now().pc.Idle?
    modifies journal
    ensures journal.Valid() && journal.Now().pc.Idle? && old(journal.trace) <= journal.trace
  {
    hide SafeRun, Precheck, Transact, Convergence.OnceOnly, Completed;
    var n: nat := *;
    while n > 0
      invariant journal.Valid() && journal.Now().pc.Idle? && old(journal.trace) <= journal.trace
    {
      var req: Request := *;
      if !Starting(req) { var _ := journal.Perform(req); }
      n := n - 1;
    }
  }

  /**
   * A read takes no lock: it sees the ledger of any state the run passes through, another worker's half-done
   * operation included, but of none before `from`.
   */
  method Read(journal: RecoveryJournal, from: nat) returns (l: Ledger, at: nat)
    requires journal.Valid() && journal.Now().pc.Idle? && from < |journal.trace|
    modifies journal
    ensures journal.Valid() && journal.Now().pc.Idle? && old(journal.trace) <= journal.trace
    ensures from <= at < |journal.trace| && l == journal.trace[at].ledger
  {
    hide SafeRun;
    OtherWorkers(journal);
    at := *;
    if at < from || |journal.trace| <= at { at := |journal.trace| - 1; }
    l := journal.trace[at].ledger;
  }

  function StoredCheckpoint(l: Ledger, chain: nat): Option<F.Evidence> {
    if Decimal(chain) in l.checkpoints then Some(l.checkpoints[Decimal(chain)]) else None
  }

  /** Why an assessment has no answer. The last two leave the chain halted. */
  datatype Problem =
    | JournalError(error: Error)
    | Provider(fault: F.Fault)
    | CheckpointUnknown
    | PolicyChanged
    | CheckpointReplaced

  predicate IsHalted(l: Ledger, chain: nat) { Decimal(chain) in l.halts }

  /**
   * `load_checkpoint`: a health gate, then two reads: the chain was not halted, and later this checkpoint was stored.
   */
  method LoadCheckpoint(journal: RecoveryJournal, chain: nat)
    returns (r: Result<Option<F.Evidence>, Problem>, looked: nat, at: nat)
    requires journal.Valid() && journal.Now().pc.Idle?
    modifies journal
    ensures journal.Valid() && journal.Now().pc.Idle? && old(journal.trace) <= journal.trace
    ensures r.Success? ==>
      && |old(journal.trace)| - 1 <= looked <= at < |journal.trace|
      && !IsHalted(journal.trace[looked].ledger, chain) && r.value == StoredCheckpoint(journal.trace[at].ledger, chain)
    ensures r.Failure? ==> r.error.JournalError?
  {
    hide SafeRun, Decimal, StoredCheckpoint, IsHalted;
    looked, at := 0, 0;
    var healthy := journal.EnsureHealthy();
    if healthy.Failure? { r := Failure(JournalError(healthy.error)); return; }
    var l;
    l, looked := Read(journal, |journal.trace| - 1);
    if IsHalted(l, chain) { r := Failure(JournalError(RecoveryRequired)); return; }
    l, at := Read(journal, looked);
    r := Success(StoredCheckpoint(l, chain));
  }

  /**
   * Check previously accepted history against the provider's answer: success means it still stands under this policy,
   * and a positive contradiction leaves the chain halted.
   */
  method CheckContinuity(journal: RecoveryJournal, chain: nat, policy: F.Policy, reply: F.Reply)
    returns (r: Result<Option<F.Evidence>, Problem>, at: nat)
    requires journal.Valid() && journal.Now().pc.Idle?
    modifies journal
    ensures journal.Valid() && journal.Now().pc.Idle? && old(journal.trace) <= journal.trace
    ensures r.Success? ==>
              |old(journal.trace)| - 1 <= at < |journal.trace|
              && r.value == StoredCheckpoint(journal.trace[at].ledger, chain)
    ensures r.Success? && r.value.Some? ==>
              r.value.value.policy == policy && F.AssessContinuity(r.value.value, reply) == Success(F.Consistent)
    ensures r.Failure? && (r.error.PolicyChanged? || r.error.CheckpointReplaced?) ==> IsHalted(journal.ledger, chain)
  {
    hide SafeRun, StoredCheckpoint;
    var looked;
    r, looked, at := LoadCheckpoint(journal, chain);
    if r.Failure? || r.value.None? { return; }
    OtherWorkers(journal);
    if r.value.value.policy != policy {
      var halted := journal.HaltChainDurably(chain);
      r := Failure(if halted.Success? then PolicyChanged else JournalError(halted.error));
      return;
    }
    var continuity := F.AssessContinuity(r.value.value, reply);
    OtherWorkers(journal);
    if continuity.Failure? { r := Failure(Provider(continuity.error)); return; }
    match continuity.value
    case Unavailable => r := Failure(CheckpointUnknown);
    case Conflict =>
      var halted := journal.HaltChainDurably(chain);
      r := Failure(if halted.Success? then CheckpointReplaced else JournalError(halted.error));
    case Consistent =>
  }

  /**
   * Judge a receipt and commit its checkpoint against other workers: a settled answer is stored, at its commit, with
   * the same height, hash and policy.
   */
  method Assess(journal: RecoveryJournal, chain: nat, policy: F.Policy, hash: F.Hash, receipt: F.Receipt,
                provider: F.Provider, history: nat -> F.Reply)
    returns (r: Result<F.Assessment, Problem>)
    requires journal.Valid() && journal.Now().pc.Idle?
    modifies journal
    ensures journal.Valid() && journal.Now().pc.Idle? && old(journal.trace) <= journal.trace
    ensures r.Success? && r.value.Settled? ==>
      && F.AssessReceipt(policy, chain, hash, receipt, provider) == Success(r.value)
      && Stored(journal.ledger, chain, r.value.evidence) && r.value.evidence.policy == policy
    ensures r.Success? && !r.value.Settled? ==>
      F.AssessReceipt(policy, chain, hash, receipt, provider) == Success(r.value) || r.value == F.Pending(true)
  {
    hide SafeRun, Stored, IsHalted, StoredCheckpoint, F.AssessContinuity, F.AssessHead, Convergence.OnceOnly;
    var previous, at := CheckContinuity(journal, chain, policy, history(0));
    if previous.Failure? { return Failure(previous.error); }
    var assessment := F.AssessReceipt(policy, chain, hash, receipt, provider);
    OtherWorkers(journal);
    if assessment.Failure? { return Failure(Provider(assessment.error)); }
    if !assessment.value.Settled? { return Success(assessment.value); }
    var evidence := assessment.value.evidence;
    F.SettledReads(policy, chain, hash, receipt, provider, evidence);
    hide F.AssessReceipt;
    var retry := 0;
    while retry < CAS_ATTEMPTS
      invariant journal.Valid() && journal.Now().pc.Idle? && old(journal.trace) <= journal.trace
      invariant previous.Success?
    {
      if retry > 0 {
        previous, at := CheckContinuity(journal, chain, policy, history(retry));
        if previous.Failure? { return Failure(previous.error); }
      }
      OtherWorkers(journal);
      if previous.value.Some? && evidence.checkpointNumber < previous.value.value.checkpointNumber {
        return Success(F.Pending(true));
      }
      var committed := journal.CommitFinality(chain, previous.value, evidence);
      if committed.Failure? { return Failure(JournalError(committed.error)); }
      if committed.value { return Success(assessment.value); }
      retry := retry + 1;
    }
    r := Success(F.Pending(true));
  }

  /**
   * What was stored stays covered: any later state of the run holds a checkpoint at least as high, under the same
   * policy, and the same row at the same height.
   */
  lemma SettledStaysStored(lib: Libraries, states: seq<World>, events: seq<Event>, i: nat, j: nat, chain: nat,
                           e: F.Evidence)
    requires SafeRun(lib, states, events) && i <= j < |states| && Stored(states[i].ledger, chain, e)
    ensures Decimal(chain) in states[j].ledger.checkpoints
    ensures var now := states[j].ledger.checkpoints[Decimal(chain)];
            && now.policy == e.policy && e.checkpointNumber <= now.checkpointNumber
            && (now.checkpointNumber == e.checkpointNumber ==> now.checkpointHash == e.checkpointHash)
  {
    hide SafeRun, Decimal;
    CheckpointMonotone(lib, states, events, i, j, Decimal(chain));
  }

  // ----- terminal evidence -----

  /** The settlement an EVM executor records. */
  datatype Settled = Settled(
    chain: nat, transactionHash: string, succeeded: bool,
    blockNumber: nat, blockHash: string, checkpointNumber: nat, checkpointHash: string, policy: F.Policy)

  function PolicyJson(p: F.Policy): Json {
    match p
    case Finalized => Obj([Field("mode", Str("finalized"))])
    case Depth(n) => Obj([Field("mode", Str("depth")), Field("confirmations", Num(n))])
  }

  function FinalityJson(s: Settled): Json {
    Obj([Field("blockNumber", Num(s.blockNumber)), Field("blockHash", Str(s.blockHash)),
         Field("checkpointNumber", Num(s.checkpointNumber)), Field("checkpointHash", Str(s.checkpointHash)),
         Field("policy", PolicyJson(s.policy))])
  }

  function EvidenceJson(s: Settled): Json {
    Obj([Field("chainId", Num(s.chain)), Field("transactionHash", Str(s.transactionHash)),
         Field("outcome", Str(if s.succeeded then "success" else "reverted")), Field("finality", FinalityJson(s))])
  }

  /** Two settlements of the same block with the same outcome, whatever checkpoint proved them final. */
  predicate SameSettlement(a: Settled, b: Settled) {
    a == b.(checkpointNumber := a.checkpointNumber, checkpointHash := a.checkpointHash)
  }

  function IdentityJson(s: Settled): Json {
    Obj([Field("chainId", Num(s.chain)), Field("transactionHash", Str(s.transactionHash)),
         Field("outcome", Str(if s.succeeded then "success" else "reverted")),
         Field("finality",
               Obj([Field("blockNumber", Num(s.blockNumber)), Field("blockHash", Str(s.blockHash)),
                    Field("policy", PolicyJson(s.policy))]))])
  }

  lemma WithoutStep(f: Field, rest: seq<Field>, key: string)
    ensures Without([f] + rest, key) == (if f.key == key then [] else [f]) + Without(rest, key)
  {
    assert ([f] + rest)[1..] == rest;
  }

  /** Dropping the two checkpoint fields leaves the block and the policy. */
  lemma FinalityWithoutCheckpoint(s: Settled)
    ensures Without(Without(FinalityJson(s).fields, "checkpointNumber"), "checkpointHash") ==
            [Field("blockNumber", Num(s.blockNumber)), Field("blockHash", Str(s.blockHash)),
             Field("policy", PolicyJson(s.policy))]
  {
    var n, h, p := Field("blockNumber", Num(s.blockNumber)), Field("blockHash", Str(s.blockHash)),
         Field("policy", PolicyJson(s.policy));
    var cn, ch := Field("checkpointNumber", Num(s.checkpointNumber)), Field("checkpointHash", Str(s.checkpointHash));
    KeysDiffer();
    Drop(n, h, cn, ch, p, "checkpointNumber");
    assert Without([n, h, cn, ch, p], "checkpointNumber") == [n, h, ch, p];
    WithoutStep(p, [], "checkpointHash");
    WithoutStep(ch, [p], "checkpointHash");
    WithoutStep(h, [ch, p], "checkpointHash");
    WithoutStep(n, [h, ch, p], "checkpointHash");
    assert [ch] + [p] == [ch, p] && [h] + [ch, p] == [h, ch, p] && [n] + [h, ch, p] == [n, h, ch, p];
  }

  lemma Drop(a: Field, b: Field, c: Field, d: Field, e: Field, key: string)
    requires a.key != key && b.key != key && c.key == key && d.key != key && e.key != key
    ensures Without([a, b, c, d, e], key) == [a, b, d, e]
  {
    WithoutStep(e, [], key);
    WithoutStep(d, [e], key);
    WithoutStep(c, [d, e], key);
    WithoutStep(b, [c, d, e], key);
    WithoutStep(a, [b, c, d, e], key);
    assert [d] + [e] == [d, e] && [c] + [d, e] == [c, d, e] && [b] + [c, d, e] == [b, c, d, e]
           && [a] + [b, c, d, e] == [a, b, c, d, e];
  }

  lemma IdentityOfEvidence(s: Settled)
    ensures TerminalIdentity(EvidenceJson(s)) == IdentityJson(s)
  {
    KeysDiffer();
    FinalityWithoutCheckpoint(s);
    hide Without;
    var fields := EvidenceJson(s).fields;
    assert fields[1..][1..][1..] == [Field("finality", FinalityJson(s))];
    assert DropCheckpoint(fields[1..][1..][1..]) == [IdentityJson(s).fields[3]];
    assert DropCheckpoint(fields[1..][1..]) == [fields[2]] + [IdentityJson(s).fields[3]];
    assert DropCheckpoint(fields[1..]) == [fields[1]] + [fields[2]] + [IdentityJson(s).fields[3]];
    assert DropCheckpoint(fields) == [fields[0]] + [fields[1]] + [fields[2]] + [IdentityJson(s).fields[3]];
  }

  lemma PolicyJsonSame(a: F.Policy, b: F.Policy)
    ensures SameValue(PolicyJson(a), PolicyJson(b)) <==> a == b
    ensures WellFormed(PolicyJson(a))
  {
    assert "mode"[0] == 'm' && "confirmations"[0] == 'c' && "finalized"[0] == 'f' && "depth"[0] == 'd';
    if a.Depth? == b.Depth? {
      var x, y := PolicyJson(a).fields, PolicyJson(b).fields;
      FieldByField(x, y);
      assert SameValue(x[0].value, y[0].value);
      if a.Depth? { assert SameValue(x[1].value, y[1].value) <==> a == b; }
    }
  }

  lemma IdentityWellFormed(s: Settled)
    ensures WellFormed(IdentityJson(s)) && UniqueKeys(IdentityJson(s).fields)
            && UniqueKeys(IdentityJson(s).fields[3].value.fields)
  {
    KeysDiffer();
    PolicyJsonSame(s.policy, s.policy);
    assert WellFormed(IdentityJson(s).fields[3].value);
  }

  lemma FinalityIdentitySame(a: Settled, b: Settled)
    ensures var x, y := IdentityJson(a).fields[3].value, IdentityJson(b).fields[3].value;
            SameValue(x, y) <==> (a.blockNumber == b.blockNumber && a.blockHash == b.blockHash && a.policy == b.policy)
  {
    hide SameValue, WellFormed, PolicyJson, UniqueKeys;
    PolicyJsonSame(a.policy, b.policy);
    IdentityWellFormed(b);
    var x, y := IdentityJson(a).fields[3].value.fields, IdentityJson(b).fields[3].value.fields;
    FieldByField(x, y);
    LeafSame(x[0].value, y[0].value);
    LeafSame(x[1].value, y[1].value);
    assert SameValue(x[2].value, y[2].value) <==> a.policy == b.policy;
  }

  lemma IdentityJsonSame(a: Settled, b: Settled)
    ensures SameValue(IdentityJson(a), IdentityJson(b)) <==> SameSettlement(a, b)
  {
    hide SameValue, WellFormed, PolicyJson, UniqueKeys;
    KeysDiffer();
    FinalityIdentitySame(a, b);
    IdentityWellFormed(b);
    var x, y := IdentityJson(a).fields, IdentityJson(b).fields;
    FieldByField(x, y);
    LeafSame(x[0].value, y[0].value);
    LeafSame(x[1].value, y[1].value);
    LeafSame(x[2].value, y[2].value);
    assert SameValue(x[3].value, y[3].value) <==>
             (a.blockNumber == b.blockNumber && a.blockHash == b.blockHash && a.policy == b.policy);
  }

  /**
   * Two settlements have one terminal identity exactly when they name the same transaction, outcome, block and
   * policy.
   */
  lemma SameIdentityIffSameSettlement(a: Settled, b: Settled)
    ensures CanonicalText(TerminalIdentity(EvidenceJson(a))) == CanonicalText(TerminalIdentity(EvidenceJson(b))) <==>
              SameSettlement(a, b)
  {
    IdentityOfEvidence(a);
    IdentityOfEvidence(b);
    IdentityJsonSame(a, b);
    IdentityWellFormed(a);
    IdentityWellFormed(b);
    hide IdentityJson, EvidenceJson, TerminalIdentity, CanonicalText, SameValue, WellFormed;
    CanonicalDecides(IdentityJson(a), IdentityJson(b));
  }

  /**
   * Reporting a settled id again changes nothing when it is the same settlement under a later checkpoint, and halts
   * the ledger with both witnesses kept when it is any other.
   */
  lemma RepeatedSettlement(lib: Libraries, l: Ledger, kind: Kind, id: string, first: Settled, again: Settled)
    requires id in l.admissions && l.admissions[id].kind == kind && l.admissions[id].state.Terminal?
    requires FirstWitness(l.evidence, id) == Some(EvidenceJson(first))
    requires ValidateIdentity(lib, l, id, l.admissions[id], EvidenceJson(again)).Success?
    ensures var o := TxRecordTerminal(lib, l, kind, id, EvidenceJson(again));
            if SameSettlement(first, again) then o == Answer(l, Done)
            else o.ledger.control.halted && o.ledger.control.reason == Some(TerminalConflict)
                 && o.reply == Failure(RecoveryRequired)
                 && o.ledger.evidence == l.evidence + [Witness(id, EvidenceJson(again))]
                 && FirstWitness(o.ledger.evidence, id) == Some(EvidenceJson(first))
  {
    hide EvidenceJson, TerminalIdentity, CanonicalText, ValidateIdentity, FirstWitness;
    SameIdentityIffSameSettlement(first, again);
    var longer := l.evidence + [Witness(id, EvidenceJson(again))];
    assert longer[..|l.evidence|] == l.evidence;
    FirstWitnessPrefix(l.evidence, longer, id);
  }

  lemma KeysDiffer()
    ensures "blockNumber" != "checkpointNumber" && "blockHash" != "checkpointNumber"
            && "checkpointHash" != "checkpointNumber" && "policy" != "checkpointNumber"
    ensures "blockNumber" != "checkpointHash" && "blockHash" != "checkpointHash" && "policy" != "checkpointHash"
    ensures "blockNumber" != "blockHash" && "blockNumber" != "policy" && "blockHash" != "policy"
    ensures "chainId" != "transactionHash" && "chainId" != "outcome" && "chainId" != "finality"
    ensures "transactionHash" != "outcome" && "transactionHash" != "finality" && "outcome" != "finality"
    ensures "success" != "reverted"
  {
    assert "blockNumber"[0] == 'b' && "blockHash"[0] == 'b' && "checkpointNumber"[0] == 'c' && "policy"[0] == 'p'
           && "checkpointHash"[0] == 'c';
    assert |"blockNumber"| == 11 && |"blockHash"| == 9 && |"checkpointNumber"| == 16 && |"checkpointHash"| == 14;
    assert |"chainId"| == 7 && |"outcome"| == 7 && |"finality"| == 8 && "chainId"[0] == 'c' && "outcome"[0] == 'o';
    assert |"success"| == 7 && |"reverted"| == 8;
  }
}
