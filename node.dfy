/**
 * The Node driver as an object: its only node-owned mutable value is the
 * pending randomness commitment; the DAG and mempool it owns and the log of
 * what it has handed to the network are fields beside it. Each method is
 * proved to leave the state its duty's function in module Duties describes.
 * Calls into one Node are taken to be serialized.
 */
module NodeDriver {
  import opened Protocol
  import opened Duties

  class Node {
    /** Node id, signing key and collaborators, fixed at creation. */
    const ctx: Context
    /** The pending commitment; None while the node holds no reveal key. */
    var commitment: Option<Commitment>
    var dag: Dag
    var mempool: seq<Transaction>
    /** Everything broadcast or gossiped so far, oldest first. */
    var outbox: seq<Message>

    function State(): NodeState
      reads this
    {
      NodeState(commitment, dag, mempool, outbox)
    }

    /** A node over a fresh ledger: no commitment, an empty mempool, nothing sent. */
    constructor (ctx: Context, genesis: Dag)
      ensures this.ctx == ctx
      ensures State() == NodeState(None, genesis, [], [])
    {
      this.ctx := ctx;
      commitment := None;
      dag := genesis;
      mempool := [];
      outbox := [];
    }

    /** One iteration of the duty cycle at the given clock readings. */
    method Tick(currentBlockNumber: Slot, epoch: Epoch, entropy: Bytes)
      modifies this
      ensures State() == TickStep(ctx, old(State()), TickInput(currentBlockNumber, epoch, entropy))
      ensures mempool == old(mempool)
    {
      if epoch == Commit {
        TryToCommitRandom(currentBlockNumber, entropy);
      } else if epoch == Reveal {
        TryToRevealRandom(currentBlockNumber);
      }
      TryToSignBlock(currentBlockNumber);
    }

    /** Sign and broadcast a block when this node leads the timeframe and none is present yet. */
    method TryToSignBlock(currentBlockNumber: Slot)
      modifies this
      ensures State() == SignStep(ctx, old(State()), currentBlockNumber)
      ensures outbox != old(outbox) <==> MaySign(ctx, old(dag), currentBlockNumber)
      ensures commitment == old(commitment) && mempool == old(mempool)
    {
      var currentBlockValidator := ctx.services.leaderKey(dag, currentBlockNumber);
      var isPublicKeyCorresponds := currentBlockValidator == ctx.services.publicKeyOf(ctx.privateKey);
      var blockHasNotBeenSignedYet := !BlockPresent(dag, currentBlockNumber);
      if isPublicKeyCorresponds && blockHasNotBeenSignedYet {
        var signedBlock := ctx.services.signBlock(dag, ctx.privateKey);
        dag := AddSignedBlock(dag, currentBlockNumber, signedBlock);
        outbox := outbox + [BlockBroadcast(ctx.nodeId, signedBlock)];
      }
    }

    /** Commit to a random share for the current era unless a commitment for this or a later era is pending. */
    method TryToCommitRandom(currentBlockNumber: Slot, entropy: Bytes)
      modifies this
      ensures State() == CommitStep(ctx, old(State()), currentBlockNumber, entropy)
      ensures outbox != old(outbox) <==> MayCommit(old(commitment), EraOf(ctx, currentBlockNumber))
      ensures commitment.Some? && commitment.value.era >= EraOf(ctx, currentBlockNumber)
    {
      var eraNumber := ctx.services.eraNumber(currentBlockNumber);
      var hasRevealKey := commitment.Some?;
      var hasKeyForPreviousEra := hasRevealKey && commitment.value.era < eraNumber;
      if !hasRevealKey || hasKeyForPreviousEra {
        var eraHash := ctx.services.eraHash(dag, eraNumber);
        var (data, key) := ctx.services.encPartRandom(eraHash, entropy);
        var tx := CommitRandom(data);
        commitment := Some(Commitment(eraNumber, key));
        outbox := outbox + [TxBroadcast(ctx.nodeId, tx)];
      }
    }

    /** Reveal the pending commitment's key when it was made for the current era, then forget it. */
    method TryToRevealRandom(currentBlockNumber: Slot)
      modifies this
      ensures State() == RevealStep(ctx, old(State()), currentBlockNumber)
      ensures outbox != old(outbox) <==> MayReveal(old(commitment), EraOf(ctx, currentBlockNumber))
      ensures outbox != old(outbox) ==> commitment == None
    {
      var eraNumber := ctx.services.eraNumber(currentBlockNumber);
      var hasRevealKey := commitment.Some?;
      var hasKeyForThisEra := hasRevealKey && commitment.value.era == eraNumber;
      if hasRevealKey && hasKeyForThisEra {
        var tx := RevealRandom(PlaceholderCommitHash, commitment.value.revealKey);
        commitment := None;
        outbox := outbox + [TxBroadcast(ctx.nodeId, tx)];
      }
    }

    /**
     * A block received from `sender` in timeframe `currentBlockNumber`: admit
     * it when its signature verifies against the timeframe's leader, report
     * that leader otherwise. The sender only appears in diagnostics.
     */
    method HandleBlockMessage(sender: NodeId, rawSignedBlock: Bytes, currentBlockNumber: Slot)
      modifies this
      ensures State() == BlockMessageStep(ctx, old(State()), currentBlockNumber, rawSignedBlock)
      ensures commitment == old(commitment) && mempool == old(mempool)
    {
      var currentValidator := ctx.services.leaderKey(dag, currentBlockNumber);
      var parsed := ctx.services.parseSignedBlock(rawSignedBlock);
      if parsed.Some? {
        var signedBlock := parsed.value;
        if ctx.services.verifySignature(signedBlock, currentValidator) {
          dag := AddSignedBlock(dag, currentBlockNumber, signedBlock);
        } else {
          outbox := outbox + [MaliciousGossip(currentValidator)];
        }
      }
    }

    /** A transaction received from `sender`: admit it to the mempool when the verifier accepts it. */
    method HandleTransactionMessage(sender: NodeId, rawTransaction: Bytes)
      modifies this
      ensures State() == TransactionMessageStep(ctx, old(State()), rawTransaction)
      ensures commitment == old(commitment) && dag == old(dag) && outbox == old(outbox)
    {
      var parsed := ctx.services.parseTransaction(rawTransaction);
      if parsed.Some? {
        var transaction := parsed.value;
        if ctx.services.checkIfValid(dag, transaction) {
          mempool := mempool + [transaction];
        }
      }
    }
  }
}
