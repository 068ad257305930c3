/** The capacity harness's own check that a recovery changed exactly what it may, and what that check is worth. */
module RecoveryInventory {
  import opened Wrappers
  import opened Json
  import opened ReplayKey
  import opened Ledger
  import F = Finality

  datatype ControlRow = ControlRow(deployment: string, epoch: nat, namespace: Option<string>, checkpoint: nat,
                                   halted: bool)
  datatype AdmissionRow = AdmissionRow(kind: Kind, fingerprint: Digest, payloadDigest: Digest, state: State,
                                       replayKey: Option<string>)
  datatype AttemptRow = AttemptRow(id: string, replayKey: string, digest: Digest, payloadDigest: Digest)

  /** The tables compared by digest; an ideal digest stands for the rows it was taken over. */
  datatype TableDigests = TableDigests(evidence: seq<(string, string)>, checkpoints: map<string, F.Evidence>,
                                       halts: set<string>)

  datatype Inventory = Inventory(control: ControlRow, admissions: map<string, AdmissionRow>,
                                 attempts: seq<AttemptRow>, tables: TableDigests)

  datatype Counts = Counts(terminal: nat, quarantined: nat, unsent: nat)

  function InspectAdmission(a: Admission): AdmissionRow {
    AdmissionRow(a.kind, a.fingerprint, Sha256(CanonicalText(a.payload)), a.state, a.replayKey)
  }

  /** The snapshot the harness takes of a ledger. */
  function Inspect(l: Ledger): Inventory {
    Inventory(
      ControlRow(l.control.deployment, l.control.epoch, l.control.namespace, l.control.checkpoint, l.control.halted),
      map id | id in l.admissions :: InspectAdmission(l.admissions[id]),
      seq(|l.attempts|, i requires 0 <= i < |l.attempts| =>
        AttemptRow(l.attempts[i].id, l.attempts[i].replayKey, l.attempts[i].digest,
                   Sha256(CanonicalText(l.attempts[i].payload)))),
      TableDigests(
        seq(|l.evidence|,
            i requires 0 <= i < |l.evidence| => (l.evidence[i].id, CanonicalText(l.evidence[i].evidence))),
        l.checkpoints, l.halts))
  }

  predicate Attempted(inv: Inventory, id: string) { exists row :: row in inv.attempts && row.id == id }

  /** What recovery makes of one admission. */
  function ExpectedRow(before: Inventory, id: string): AdmissionRow
    requires id in before.admissions
  {
    var row := before.admissions[id];
    if row.state.Terminal? || !Attempted(before, id) then row else row.(state := Quarantined)
  }

  predicate ControlMoved(before: ControlRow, after: ControlRow, namespace: Option<string>) {
    after.deployment == before.deployment && after.epoch == before.epoch + 1 && after.namespace == namespace
    && after.namespace != before.namespace && after.checkpoint == 0 && !after.halted
  }

  predicate Passes(before: Inventory, after: Inventory, namespace: Option<string>) {
    && ControlMoved(before.control, after.control, namespace)
    && before.admissions.Keys == after.admissions.Keys
    && before.attempts == after.attempts && before.tables == after.tables
    && forall id :: id in before.admissions ==> after.admissions[id] == ExpectedRow(before, id)
  }

  function TerminalIds(inv: Inventory): set<string> {
    set id | id in inv.admissions && inv.admissions[id].state.Terminal?
  }

  function QuarantinedIds(inv: Inventory): set<string> {
    set id | id in inv.admissions && !inv.admissions[id].state.Terminal? && Attempted(inv, id)
  }

  function UnsentIds(inv: Inventory): set<string> {
    set id | id in inv.admissions && !inv.admissions[id].state.Terminal? && !Attempted(inv, id)
  }

  /** `validate_recovery_inventory`: accepts exactly the inventories that pass, and counts each kind of admission. */
  method ValidateRecoveryInventory(before: Inventory, after: Inventory, namespace: Option<string>)
    returns (r: Option<Counts>)
    ensures r.Some? <==> Passes(before, after, namespace)
    ensures r.Some? ==> r.value == Counts(|TerminalIds(before)|, |QuarantinedIds(before)|, |UnsentIds(before)|)
  {
    if !ControlMoved(before.control, after.control, namespace) { return None; }
    if before.admissions.Keys != after.admissions.Keys { return None; }
    if before.attempts != after.attempts || before.tables != after.tables { return None; }
    var attempted := set row | row in before.attempts :: row.id;
    assert forall id :: id in attempted <==> Attempted(before, id);
    hide Tally, Attempted;
    var counts := Counts(0, 0, 0);
    var left := before.admissions.Keys;
    TallyEnds(before);
    while left != {}
      invariant left <= before.admissions.Keys
      invariant forall id :: id in before.admissions && id !in left ==> after.admissions[id] == ExpectedRow(before, id)
      invariant counts == Tally(before, left)
      decreases |left|
    {
      var id :| id in left;
      var original := before.admissions[id];
      var expected := original;
      CountOne(before, left, id);
      if original.state.Terminal? {
        counts := counts.(terminal := counts.terminal + 1);
      } else if id in attempted {
        expected := expected.(state := Quarantined);
        counts := counts.(quarantined := counts.quarantined + 1);
      } else {
        counts := counts.(unsent := counts.unsent + 1);
      }
      if after.admissions[id] != expected { return None; }
      left := left - {id};
    }
    r := Some(counts);
  }

  /** How many admissions of each kind are off the work list. */
  function Tally(inv: Inventory, left: set<string>): Counts {
    Counts(|TerminalIds(inv) - left|, |QuarantinedIds(inv) - left|, |UnsentIds(inv) - left|)
  }

  lemma TallyEnds(inv: Inventory)
    ensures Tally(inv, inv.admissions.Keys) == Counts(0, 0, 0)
    ensures Tally(inv, {}) == Counts(|TerminalIds(inv)|, |QuarantinedIds(inv)|, |UnsentIds(inv)|)
  {
    assert TerminalIds(inv) - inv.admissions.Keys == {} && TerminalIds(inv) - {} == TerminalIds(inv);
    assert QuarantinedIds(inv) - inv.admissions.Keys == {} && QuarantinedIds(inv) - {} == QuarantinedIds(inv);
    assert UnsentIds(inv) - inv.admissions.Keys == {} && UnsentIds(inv) - {} == UnsentIds(inv);
  }

  /** Taking one id off the work list raises exactly the count of its kind. */
  lemma CountOne(inv: Inventory, left: set<string>, id: string)
    requires id in left && id in inv.admissions
    ensures var t := Tally(inv, left);
            Tally(inv, left - {id}) ==
            if inv.admissions[id].state.Terminal? then t.(terminal := t.terminal + 1)
            else if Attempted(inv, id) then t.(quarantined := t.quarantined + 1)
            else t.(unsent := t.unsent + 1)
  {
    DropOne(TerminalIds(inv), left, id);
    DropOne(QuarantinedIds(inv), left, id);
    DropOne(UnsentIds(inv), left, id);
  }

  lemma DropOne(s: set<string>, left: set<string>, id: string)
    requires id in left
    ensures |s - (left - {id})| == |s - left| + if id in s then 1 else 0
  {
    if id in s {
      assert s - (left - {id}) == (s - left) + {id};
    } else {
      assert s - (left - {id}) == s - left;
    }
  }

  // ----- what the check is worth -----

  lemma AttemptedMatches(l: Ledger, id: string)
    ensures Attempted(Inspect(l), id) <==> HasAttempt(l.attempts, id)
  {
    var rows := Inspect(l).attempts;
    if HasAttempt(l.attempts, id) {
      var row :| row in l.attempts && row.id == id;
      var i :| 0 <= i < |l.attempts| && l.attempts[i] == row;
      assert rows[i].id == id && rows[i] in rows;
    }
    if Attempted(Inspect(l), id) {
      var row :| row in rows && row.id == id;
      var i :| 0 <= i < |rows| && rows[i] == row;
      assert l.attempts[i].id == id && l.attempts[i] in l.attempts;
    }
  }

  lemma RecoveredAdmissions(l: Ledger, namespace: Option<string>, run: string)
    ensures var after := Inspect(Unhalted(TxRecover(l, namespace, run)));
            && after.admissions.Keys == Inspect(l).admissions.Keys
            && forall id :: id in l.admissions ==> after.admissions[id] == ExpectedRow(Inspect(l), id)
  {
    forall id | id in l.admissions
      ensures Inspect(Unhalted(TxRecover(l, namespace, run))).admissions[id] == ExpectedRow(Inspect(l), id)
    {
      AttemptedMatches(l, id);
    }
  }

  /**
   * The check accepts an inventory exactly when it is what recovery into that other namespace produces: recovery
   * always passes, and nothing else does.
   */
  lemma PassesIffRecovered(l: Ledger, inv: Inventory, namespace: Option<string>, run: string)
    ensures Passes(Inspect(l), inv, namespace) <==>
            (namespace != l.control.namespace && inv == Inspect(Unhalted(TxRecover(l, namespace, run))))
  {
    var before, after := Inspect(l), Inspect(Unhalted(TxRecover(l, namespace, run)));
    RecoveredAdmissions(l, namespace, run);
    assert after.attempts == before.attempts && after.tables == before.tables;
    assert after.control == ControlRow(l.control.deployment, l.control.epoch + 1, namespace, 0, false);
    if Passes(before, inv, namespace) {
      assert inv.admissions == after.admissions;
      assert inv == after;
    }
    if namespace != l.control.namespace && inv == after {
      assert Passes(before, inv, namespace);
    }
  }
}
