/**
 * Finality of a receipt, judged by a handful of reads of a chain that may reorganise between any two of them.
 * The decisions are functions of the replies; what they mean is stated over the views that answered.
 */
module Finality {
  import opened Wrappers
  import opened Text

  type Hash = nat

  datatype Policy = Finalized | Depth(confirmations: nat)

  const LOCAL_CHAIN := 31337

  /** Zero confirmations are restricted to the local development chain. */
  predicate PolicyAllowed(policy: Policy, chain: nat) {
    policy == Depth(0) ==> chain == LOCAL_CHAIN
  }

  datatype Evidence = Evidence(blockNumber: nat, blockHash: Hash, checkpointNumber: nat, checkpointHash: Hash,
                               policy: Policy)

  datatype Receipt = Receipt(transactionHash: Hash, hasStatus: bool, blockNumber: Option<nat>, blockHash: Option<Hash>)

  datatype Assessment = Pending(canonical: bool) | Orphaned | Settled(evidence: Evidence)
  datatype Continuity = Consistent | Unavailable | Conflict
  datatype Fault = Rpc | Config | Inconsistent

  datatype Query = Number(number: nat) | Latest | FinalizedTag
  datatype Reply = Unreachable | Missing | Block(number: nat, hash: Hash)

  /** The provider's answers: the reply to a query issued as the i-th read of one assessment. */
  type Provider = (nat, Query) -> Reply

  // Positions of the reads of one assessment, in the order they are issued.
  const READ_RECEIPT := 0
  const READ_HEAD := 1
  const READ_BOUNDARY := 2
  const REREAD_RECEIPT := 3
  const REREAD_CHECKPOINT := 4
  const REREAD_HEAD := 5

  function AssessContinuity(previous: Evidence, reply: Reply): Result<Continuity, Fault> {
    match reply
    case Unreachable => Failure(Rpc)
    case Missing => Success(Unavailable)
    case Block(number, hash) =>
      if number != previous.checkpointNumber then Failure(Inconsistent)
      else Success(if hash == previous.checkpointHash then Consistent else Conflict)
  }

  function AssessReceipt(policy: Policy, chain: nat, expected: Hash, receipt: Receipt,
                         p: Provider): Result<Assessment, Fault> {
    if !PolicyAllowed(policy, chain) then Failure(Config)
    else if receipt.transactionHash != expected || !receipt.hasStatus then Failure(Inconsistent)
    else if receipt.blockNumber.None? || receipt.blockHash.None? then Success(Pending(false))
    else
      var n, h := receipt.blockNumber.value, receipt.blockHash.value;
      match p(READ_RECEIPT, Number(n))
      case Unreachable => Failure(Rpc)
      case Missing => Success(Pending(false))
      case Block(number, hash) =>
        if number != n then Failure(Inconsistent)
        else if hash != h then Success(Orphaned)
        else AssessHead(policy, n, h, p)
  }

  function HeadQuery(policy: Policy): Query { if policy.Finalized? then FinalizedTag else Latest }

  function AssessHead(policy: Policy, n: nat, h: Hash, p: Provider): Result<Assessment, Fault> {
    match p(READ_HEAD, HeadQuery(policy))
    case Unreachable => Failure(Rpc)
    case Missing => Success(Pending(true))
    case Block(head, headHash) =>
      var required := if policy.Finalized? then n else n + policy.confirmations;
      if required > U64_MAX then Failure(Inconsistent)
      else if head < required then Success(Pending(true))
      else if policy.Finalized? || policy.confirmations == 0 then
        Recheck(policy, n, h, head, headHash, head, headHash, p)
      else
        var boundary := head - policy.confirmations;
        match p(READ_BOUNDARY, Number(boundary))
        case Unreachable => Failure(Rpc)
        case Missing => Success(Pending(true))
        case Block(number, hash) =>
          if number != boundary then Failure(Inconsistent)
          else Recheck(policy, n, h, head, headHash, number, hash, p)
  }

  /** Re-read the receipt's block, the selected checkpoint and the observed head before accepting. */
  function Recheck(policy: Policy, n: nat, h: Hash, head: nat, headHash: Hash, cp: nat, cpHash: Hash, p: Provider):
    Result<Assessment, Fault>
  {
    match p(REREAD_RECEIPT, Number(n))
    case Unreachable => Failure(Rpc)
    case Missing => Success(Pending(false))
    case Block(number, hash) =>
      if number != n then Failure(Inconsistent)
      else if hash != h then Success(Orphaned)
      else
        match p(REREAD_CHECKPOINT, Number(cp))
        case Unreachable => Failure(Rpc)
        case Missing => Success(Pending(true))
        case Block(number, hash) =>
          if number != cp || hash != cpHash || (cp == n && cpHash != h) then Failure(Inconsistent)
          else if head == cp then Success(Settled(Evidence(n, h, cp, cpHash, policy)))
          else
            match p(REREAD_HEAD, Number(head))
            case Unreachable => Failure(Rpc)
            case Missing => Success(Pending(true))
            case Block(number, hash) =>
              if number != head || hash != headHash then Failure(Inconsistent)
              else Success(Settled(Evidence(n, h, cp, cpHash, policy)))
  }

  // ----- views of the chain -----

  /** One canonical chain, by height, and how much of it the network calls finalized. */
  datatype View = View(blocks: seq<Hash>, finalized: Option<nat>) {
    predicate Has(n: nat, h: Hash) { n < |blocks| && blocks[n] == h }
  }

  /** A reply an honest node holding this view may give; it may also fail or know nothing. */
  predicate HonestReply(r: Reply, q: Query, v: View) {
    r.Block? ==>
      v.Has(r.number, r.hash) &&
      match q
      case Number(n) => r.number == n
      case Latest => r.number == |v.blocks| - 1
      case FinalizedTag => v.finalized == Some(r.number)
  }

  /** The i-th read was answered from the i-th view; later views continue the history. */
  ghost predicate Honest(p: Provider, views: seq<View>) {
    |views| > REREAD_HEAD &&
    forall i: nat, q :: i <= REREAD_HEAD ==> HonestReply(p(i, q), q, views[i])
  }

  /** A hash commits to everything below it. */
  predicate LinkedPair(a: View, b: View) {
    forall n :: 0 <= n < |a.blocks| && b.Has(n, a.blocks[n]) ==> a.blocks[..n + 1] == b.blocks[..n + 1]
  }

  predicate Linked(views: seq<View>) {
    forall i, j :: 0 <= i < |views| && 0 <= j < |views| ==> LinkedPair(views[i], views[j])
  }

  /** Once abandoned, a block does not become canonical again. */
  ghost predicate NeverReturns(views: seq<View>) {
    forall i, j, k, n: nat, h :: 0 <= i <= j <= k < |views| && views[i].Has(n, h) && views[k].Has(n, h) ==>
      views[j].Has(n, h)
  }

  /** Wherever the checkpoint is canonical, so is the receipt's block: it is an ancestor or the checkpoint itself. */
  predicate Covers(e: Evidence, views: seq<View>) {
    e.blockNumber <= e.checkpointNumber &&
    forall k :: 0 <= k < |views| && views[k].Has(e.checkpointNumber, e.checkpointHash) ==>
      views[k].Has(e.blockNumber, e.blockHash)
  }

  /** The read that first returned the checkpoint. */
  function CheckpointRead(policy: Policy): nat {
    if policy.Finalized? || policy.confirmations == 0 then READ_HEAD else READ_BOUNDARY
  }

  lemma LinkedBelow(views: seq<View>, i: nat, j: nat, n: nat, m: nat, h: Hash)
    requires Linked(views) && i < |views| && j < |views| && m <= n
    requires n < |views[i].blocks| && views[j].Has(n, views[i].blocks[n])
    requires views[i].Has(m, h)
    ensures views[j].Has(m, h)
  {
    assert LinkedPair(views[i], views[j]);
    assert views[i].blocks[..n + 1][m] == views[j].blocks[..n + 1][m];
  }

  /** What an accepted assessment has read. */
  lemma SettledReads(policy: Policy, chain: nat, expected: Hash, receipt: Receipt, p: Provider, e: Evidence)
    requires AssessReceipt(policy, chain, expected, receipt, p) == Success(Settled(e))
    ensures receipt == Receipt(expected, true, Some(e.blockNumber), Some(e.blockHash)) && e.policy == policy
            && PolicyAllowed(policy, chain)
    ensures p(READ_RECEIPT, Number(e.blockNumber)) == Block(e.blockNumber, e.blockHash)
    ensures p(REREAD_RECEIPT, Number(e.blockNumber)) == Block(e.blockNumber, e.blockHash)
    ensures p(READ_HEAD, HeadQuery(policy)).Block?
    ensures var head := p(READ_HEAD, HeadQuery(policy)).number;
            e.checkpointNumber == (if policy.Finalized? then head else head - policy.confirmations)
    ensures CheckpointRead(policy) == READ_HEAD ==> p(READ_HEAD, HeadQuery(policy)).hash == e.checkpointHash
    ensures CheckpointRead(policy) == READ_BOUNDARY ==>
              p(READ_BOUNDARY, Number(e.checkpointNumber)) == Block(e.checkpointNumber, e.checkpointHash)
    ensures p(REREAD_CHECKPOINT, Number(e.checkpointNumber)) == Block(e.checkpointNumber, e.checkpointHash)
    ensures e.blockNumber <= e.checkpointNumber
    ensures e.blockNumber == e.checkpointNumber ==> e.blockHash == e.checkpointHash
    ensures var head := p(READ_HEAD, HeadQuery(policy));
            head.number != e.checkpointNumber ==> p(REREAD_HEAD, Number(head.number)) == head
  {
  }

  /** An orphaned verdict rests on a block that is there and is another one, never on an absent answer. */
  lemma OrphanedIsPositive(policy: Policy, chain: nat, expected: Hash, receipt: Receipt, p: Provider, views: seq<View>)
    requires Honest(p, views) && AssessReceipt(policy, chain, expected, receipt, p) == Success(Orphaned)
    ensures receipt.blockNumber.Some? && receipt.blockHash.Some?
    ensures exists i :: i in {READ_RECEIPT, REREAD_RECEIPT} &&
              receipt.blockNumber.value < |views[i].blocks|
              && !views[i].Has(receipt.blockNumber.value, receipt.blockHash.value)
  {
    var q := Number(receipt.blockNumber.value);
    assert HonestReply(p(READ_RECEIPT, q), q, views[READ_RECEIPT]);
    assert HonestReply(p(REREAD_RECEIPT, q), q, views[REREAD_RECEIPT]);
  }

  /** A pending verdict claims the block canonical only after having read it so. */
  lemma PendingCanonicalWasRead(policy: Policy, chain: nat, expected: Hash, receipt: Receipt, p: Provider)
    requires AssessReceipt(policy, chain, expected, receipt, p) == Success(Pending(true))
    ensures receipt.blockNumber.Some? && receipt.blockHash.Some?
    ensures p(READ_RECEIPT, Number(receipt.blockNumber.value)) ==
              Block(receipt.blockNumber.value, receipt.blockHash.value)
  {}

  /**
   * Under a depth policy the checkpoint is exactly the observed head minus the depth, at or above the receipt, and
   * lies on the observed head's own branch.
   */
  lemma DepthCheckpoint(policy: Policy, chain: nat, expected: Hash, receipt: Receipt, p: Provider, views: seq<View>,
                        e: Evidence)
    requires Honest(p, views) && Linked(views) && NeverReturns(views)
    requires AssessReceipt(policy, chain, expected, receipt, p) == Success(Settled(e)) && policy.Depth?
    ensures policy.confirmations == 0 ==> chain == LOCAL_CHAIN
    ensures |views[READ_HEAD].blocks| - 1 - policy.confirmations == e.checkpointNumber >= e.blockNumber
    ensures var head := |views[READ_HEAD].blocks| - 1;
            forall k :: 0 <= k < |views| && views[k].Has(head, views[READ_HEAD].blocks[head]) ==>
              views[k].Has(e.checkpointNumber, e.checkpointHash)
  {
    hide AssessReceipt, Linked;
    SettledReads(policy, chain, expected, receipt, p, e);
    var head, c := p(READ_HEAD, Latest), CheckpointRead(policy);
    assert HonestReply(head, Latest, views[READ_HEAD]);
    if policy.confirmations > 0 {
      assert HonestReply(p(READ_BOUNDARY, Number(e.checkpointNumber)), Number(e.checkpointNumber),
                         views[READ_BOUNDARY]);
      assert HonestReply(p(REREAD_HEAD, Number(head.number)), Number(head.number), views[REREAD_HEAD]);
      assert views[READ_BOUNDARY].Has(head.number, head.hash);
    }
    hide Honest, NeverReturns;
    forall k | 0 <= k < |views| && views[k].Has(head.number, head.hash)
      ensures views[k].Has(e.checkpointNumber, e.checkpointHash)
    {
      LinkedBelow(views, c, k, head.number, e.checkpointNumber, e.checkpointHash);
    }
  }

  /**
   * Accepted evidence covers the receipt exactly when the receipt's block was canonical in the view that gave the
   * checkpoint.
   */
  lemma CoversIffCanonicalAtCheckpoint(policy: Policy, chain: nat, expected: Hash, receipt: Receipt, p: Provider,
                                       views: seq<View>, e: Evidence)
    requires Honest(p, views) && Linked(views)
    requires AssessReceipt(policy, chain, expected, receipt, p) == Success(Settled(e))
    ensures views[CheckpointRead(policy)].Has(e.checkpointNumber, e.checkpointHash)
    ensures Covers(e, views) <==> views[CheckpointRead(policy)].Has(e.blockNumber, e.blockHash)
  {
    hide AssessReceipt;
    SettledReads(policy, chain, expected, receipt, p, e);
    var c := CheckpointRead(policy);
    var q := if c == READ_HEAD then HeadQuery(policy) else Number(e.checkpointNumber);
    assert HonestReply(p(c, q), q, views[c]);
    if views[c].Has(e.blockNumber, e.blockHash) {
      forall k | 0 <= k < |views| && views[k].Has(e.checkpointNumber, e.checkpointHash)
        ensures views[k].Has(e.blockNumber, e.blockHash)
      {
        LinkedBelow(views, c, k, e.checkpointNumber, e.blockNumber, e.blockHash);
      }
    }
  }

  /** With hash-linked views that never return to an abandoned block, accepted evidence covers its receipt. */
  lemma SettledIsReorgSafe(policy: Policy, chain: nat, expected: Hash, receipt: Receipt, p: Provider,
                           views: seq<View>, e: Evidence)
    requires Honest(p, views) && Linked(views) && NeverReturns(views)
    requires AssessReceipt(policy, chain, expected, receipt, p) == Success(Settled(e))
    ensures Covers(e, views)
  {
    hide AssessReceipt;
    SettledReads(policy, chain, expected, receipt, p, e);
    CoversIffCanonicalAtCheckpoint(policy, chain, expected, receipt, p, views, e);
    var q := Number(e.blockNumber);
    assert HonestReply(p(READ_RECEIPT, q), q, views[READ_RECEIPT]);
    assert HonestReply(p(REREAD_RECEIPT, q), q, views[REREAD_RECEIPT]);
    assert views[CheckpointRead(policy)].Has(e.blockNumber, e.blockHash);
  }

  /** A later consistent continuity check proves the receipt is still canonical. */
  lemma ConsistentKeepsReceipt(policy: Policy, chain: nat, expected: Hash, receipt: Receipt, p: Provider,
                               views: seq<View>, e: Evidence, k: nat, reply: Reply)
    requires Honest(p, views) && Linked(views) && NeverReturns(views)
    requires AssessReceipt(policy, chain, expected, receipt, p) == Success(Settled(e))
    requires k < |views| && HonestReply(reply, Number(e.checkpointNumber), views[k])
    requires AssessContinuity(e, reply) == Success(Consistent)
    ensures views[k].Has(e.blockNumber, e.blockHash)
  {
    SettledIsReorgSafe(policy, chain, expected, receipt, p, views, e);
  }

  /**
   * An honest answer conflicts exactly when the checkpoint was replaced; a reorganisation above it stays consistent.
   */
  lemma ContinuityExact(e: Evidence, v: View, reply: Reply)
    requires HonestReply(reply, Number(e.checkpointNumber), v)
    ensures AssessContinuity(e, reply) == Success(Conflict) <==>
              reply.Block? && !v.Has(e.checkpointNumber, e.checkpointHash)
    ensures AssessContinuity(e, reply) == Success(Consistent) <==>
              reply.Block? && v.Has(e.checkpointNumber, e.checkpointHash)
    ensures forall before: View :: ReorgAbove(e.checkpointNumber, before, v) &&
                                   before.Has(e.checkpointNumber, e.checkpointHash) && reply.Block?
                                   ==> AssessContinuity(e, reply) == Success(Consistent)
  {
    forall before: View | ReorgAbove(e.checkpointNumber, before, v) && before.Has(e.checkpointNumber, e.checkpointHash)
      ensures v.Has(e.checkpointNumber, e.checkpointHash)
    {
      var n := e.checkpointNumber;
      assert before.blocks[..n + 1][n] == v.blocks[..n + 1][n];
    }
  }

  /** Two views that differ only above a height. */
  predicate ReorgAbove(n: nat, before: View, after: View) {
    n < |before.blocks| && n < |after.blocks| && before.blocks[..n + 1] == after.blocks[..n + 1]
  }

  /**
   * The no-return assumption is needed: a chain that flips away and back can have a receipt accepted off the
   * checkpoint's branch.
   */
  lemma FlippingChainDefeatsRecheck() returns (p: Provider, views: seq<View>, e: Evidence)
    ensures Honest(p, views) && Linked(views)
    ensures AssessReceipt(Finalized, 1, 7, Receipt(7, true, Some(1), Some(11)), p) == Success(Settled(e))
    ensures !Covers(e, views)
  {
    var a := View([10, 11, 12], Some(2));
    var b := View([10, 21, 22], Some(2));
    views := [a, b, b, a, b, b];
    var shown := views;
    p := (i: nat, q: Query) =>
      if i > REREAD_HEAD then Missing
      else match q
           case Number(n) => if n < 3 then Block(n, shown[i].blocks[n]) else Missing
           case _ => Block(2, shown[i].blocks[2]);
    e := Evidence(1, 11, 2, 22, Finalized);
    assert views[1].Has(2, 22) && !views[1].Has(1, 11);
  }
}
