/**
 * The duties of the Node driver as functions from the node's state before a
 * call to its state after it: the commit and reveal steps of the commit-reveal
 * randomness beacon, leader-gated block production, the two inbound message
 * handlers, and one tick of the duty cycle. Each function is the
 * specification of the Node method of the same duty (module NodeDriver).
 */
module Duties {
  import opened Protocol

  /** The clock readings and the entropy one tick of the duty cycle works with. */
  datatype TickInput = TickInput(slot: Slot, epoch: Epoch, entropy: Bytes)

  function EraOf(ctx: Context, slot: Slot): Era {
    ctx.services.eraNumber(slot)
  }

  // ---------------------------------------------------------------------------
  // Randomness beacon

  /** A new commitment may be made when none is pending or the pending one is for an earlier era. */
  predicate MayCommit(c: Option<Commitment>, era: Era) {
    c.None? || c.value.era < era
  }

  /** The pending commitment may be revealed only in the era it was made for. */
  predicate MayReveal(c: Option<Commitment>, era: Era) {
    c.Some? && c.value.era == era
  }

  /** The encrypted share and its reveal key drawn from the era's seed hash. */
  function CommitShare(ctx: Context, dag: Dag, era: Era, entropy: Bytes): (Bytes, Bytes) {
    ctx.services.encPartRandom(ctx.services.eraHash(dag, era), entropy)
  }

  /**
   * try_to_commit_random: when the guard holds, exactly one commit transaction
   * carrying the share is broadcast and the commitment becomes the one for the
   * current era, replacing a stale one; otherwise nothing changes. Either way
   * the guard is closed for the current era afterwards.
   */
  function CommitStep(ctx: Context, s: NodeState, slot: Slot, entropy: Bytes): (r: NodeState)
    ensures var era := EraOf(ctx, slot); var share := CommitShare(ctx, s.dag, era, entropy);
      MayCommit(s.commitment, era) ==>
        r.commitment == Some(Commitment(era, share.1)) &&
        r.outbox == s.outbox + [TxBroadcast(ctx.nodeId, CommitRandom(share.0))]
    ensures !MayCommit(s.commitment, EraOf(ctx, slot)) ==> r == s
    ensures r.dag == s.dag && r.mempool == s.mempool
    ensures !MayCommit(r.commitment, EraOf(ctx, slot))
  {
    var era := EraOf(ctx, slot);
    if MayCommit(s.commitment, era) then
      var (data, key) := CommitShare(ctx, s.dag, era, entropy);
      s.(commitment := Some(Commitment(era, key)),
         outbox := s.outbox + [TxBroadcast(ctx.nodeId, CommitRandom(data))])
    else
      s
  }

  /**
   * try_to_reveal_random: when a commitment for the current era is pending,
   * exactly one reveal transaction carrying its key is broadcast and the
   * commitment is dropped; otherwise nothing changes. Either way nothing is
   * left to reveal for the current era afterwards.
   */
  function RevealStep(ctx: Context, s: NodeState, slot: Slot): (r: NodeState)
    ensures MayReveal(s.commitment, EraOf(ctx, slot)) ==>
      r.commitment == None &&
      r.outbox == s.outbox + [TxBroadcast(ctx.nodeId, RevealRandom(PlaceholderCommitHash, s.commitment.value.revealKey))]
    ensures !MayReveal(s.commitment, EraOf(ctx, slot)) ==> r == s
    ensures r.dag == s.dag && r.mempool == s.mempool
    ensures !MayReveal(r.commitment, EraOf(ctx, slot))
  {
    if MayReveal(s.commitment, EraOf(ctx, slot)) then
      var tx := RevealRandom(PlaceholderCommitHash, s.commitment.value.revealKey);
      s.(commitment := None, outbox := s.outbox + [TxBroadcast(ctx.nodeId, tx)])
    else
      s
  }

  // ---------------------------------------------------------------------------
  // Block production

  /** The node signs for a timeframe when it is the timeframe's leader and the DAG holds no block for it yet. */
  predicate MaySign(ctx: Context, dag: Dag, slot: Slot) {
    ctx.services.leaderKey(dag, slot) == ctx.services.publicKeyOf(ctx.privateKey) &&
    !BlockPresent(dag, slot)
  }

  /**
   * try_to_sign_block: when the node may sign, the ledger assembles and signs
   * one block, records it for the timeframe, and the node broadcasts it;
   * otherwise nothing changes. The commitment and the mempool are never
   * touched, and afterwards the node may not sign for the timeframe again.
   */
  function SignStep(ctx: Context, s: NodeState, slot: Slot): (r: NodeState)
    ensures var b := ctx.services.signBlock(s.dag, ctx.privateKey);
      MaySign(ctx, s.dag, slot) ==>
        r.dag == AddSignedBlock(s.dag, slot, b) &&
        r.outbox == s.outbox + [BlockBroadcast(ctx.nodeId, b)]
    ensures !MaySign(ctx, s.dag, slot) ==> r == s
    ensures r.commitment == s.commitment && r.mempool == s.mempool
    ensures !MaySign(ctx, r.dag, slot)
  {
    if MaySign(ctx, s.dag, slot) then
      var b := ctx.services.signBlock(s.dag, ctx.privateKey);
      s.(dag := AddSignedBlock(s.dag, slot, b), outbox := s.outbox + [BlockBroadcast(ctx.nodeId, b)])
    else
      s
  }

  // ---------------------------------------------------------------------------
  // Inbound messages

  /** A block is authentic when its signature verifies against the leader key of the timeframe. */
  predicate Authentic(ctx: Context, dag: Dag, slot: Slot, b: SignedBlock) {
    ctx.services.verifySignature(b, ctx.services.leaderKey(dag, slot))
  }

  /**
   * handle_block_message, for a block received in timeframe `slot`: an
   * authentic block is added to the DAG for that timeframe and nothing is
   * reported; a block whose signature fails makes the node report the
   * timeframe's leader key exactly once and leaves the DAG as it was; bytes
   * that do not decode change nothing. The commitment and mempool stay as they were.
   */
  function BlockMessageStep(ctx: Context, s: NodeState, slot: Slot, raw: Bytes): (r: NodeState)
    ensures var parsed := ctx.services.parseSignedBlock(raw);
      parsed.Some? && Authentic(ctx, s.dag, slot, parsed.value) ==>
        r.dag == AddSignedBlock(s.dag, slot, parsed.value) && r.outbox == s.outbox
    ensures var parsed := ctx.services.parseSignedBlock(raw);
      parsed.Some? && !Authentic(ctx, s.dag, slot, parsed.value) ==>
        r.dag == s.dag &&
        r.outbox == s.outbox + [MaliciousGossip(ctx.services.leaderKey(s.dag, slot))]
    ensures ctx.services.parseSignedBlock(raw).None? ==> r == s
    ensures r.commitment == s.commitment && r.mempool == s.mempool
  {
    var leader := ctx.services.leaderKey(s.dag, slot);
    match ctx.services.parseSignedBlock(raw)
    case None => s
    case Some(b) =>
      if ctx.services.verifySignature(b, leader) then s.(dag := AddSignedBlock(s.dag, slot, b))
      else s.(outbox := s.outbox + [MaliciousGossip(leader)])
  }

  /**
   * handle_transaction_message: a transaction is appended to the mempool
   * exactly when it decodes and the verifier accepts it against the current
   * DAG; in every other case nothing changes. Nothing is broadcast.
   */
  function TransactionMessageStep(ctx: Context, s: NodeState, raw: Bytes): (r: NodeState)
    ensures var parsed := ctx.services.parseTransaction(raw);
      parsed.Some? && ctx.services.checkIfValid(s.dag, parsed.value) ==>
        r.mempool == s.mempool + [parsed.value]
    ensures var parsed := ctx.services.parseTransaction(raw);
      !(parsed.Some? && ctx.services.checkIfValid(s.dag, parsed.value)) ==> r == s
    ensures r.commitment == s.commitment && r.dag == s.dag && r.outbox == s.outbox
  {
    match ctx.services.parseTransaction(raw)
    case None => s
    case Some(tx) =>
      if ctx.services.checkIfValid(s.dag, tx) then s.(mempool := s.mempool + [tx]) else s
  }

  // ---------------------------------------------------------------------------
  // Duty cycle

  /** The beacon part of a tick: the commit step in a COMMIT phase, the reveal step in a REVEAL phase. */
  function BeaconStep(ctx: Context, s: NodeState, t: TickInput): NodeState {
    match t.epoch
    case Commit => CommitStep(ctx, s, t.slot, t.entropy)
    case Reveal => RevealStep(ctx, s, t.slot)
    case Other => s
  }

  /**
   * One iteration of the `run` loop: the beacon part, then block production,
   * which runs whatever the phase and sees the DAG the tick started with.
   * The mempool is never touched; the commitment is the beacon part's; the
   * DAG is what block production alone would make of it; the broadcasts are
   * the beacon part's followed by those of block production.
   */
  function TickStep(ctx: Context, s: NodeState, t: TickInput): (r: NodeState)
    ensures r.mempool == s.mempool
    ensures r.commitment == BeaconStep(ctx, s, t).commitment
    ensures r.dag == SignStep(ctx, s, t.slot).dag
    ensures |s.outbox| <= |SignStep(ctx, s, t.slot).outbox|
    ensures r.outbox == BeaconStep(ctx, s, t).outbox + SignStep(ctx, s, t.slot).outbox[|s.outbox|..]
  {
    SignStep(ctx, BeaconStep(ctx, s, t), t.slot)
  }

  // ---------------------------------------------------------------------------
  // Properties of single duties

  /** Running the commit step twice in one era broadcasts once: the second run changes nothing. */
  lemma CommitIdempotentInEra(ctx: Context, s: NodeState, slot: Slot, slot': Slot, entropy: Bytes, entropy': Bytes)
    requires EraOf(ctx, slot) == EraOf(ctx, slot')
    ensures var s1 := CommitStep(ctx, s, slot, entropy);
      CommitStep(ctx, s1, slot', entropy') == s1
  {
  }

  /**
   * A commitment left unrevealed does not lock the node out: in any later era
   * the commit step broadcasts again and replaces it by one for the new era.
   */
  lemma NoLockoutAfterMissedReveal(ctx: Context, s: NodeState, slot: Slot, entropy: Bytes)
    requires s.commitment.Some? && s.commitment.value.era < EraOf(ctx, slot)
    ensures var r := CommitStep(ctx, s, slot, entropy);
      |r.outbox| == |s.outbox| + 1 &&
      r.commitment.Some? && r.commitment.value.era == EraOf(ctx, slot)
  {
  }

  /** A commitment for the current or a later era blocks the commit step entirely. */
  lemma CommitBlockedByCurrentCommitment(ctx: Context, s: NodeState, slot: Slot, entropy: Bytes)
    requires s.commitment.Some? && s.commitment.value.era >= EraOf(ctx, slot)
    ensures CommitStep(ctx, s, slot, entropy) == s
  {
  }

  /** After a reveal, a second reveal in the same era broadcasts nothing. */
  lemma RevealOnceInEra(ctx: Context, s: NodeState, slot: Slot, slot': Slot)
    requires EraOf(ctx, slot) == EraOf(ctx, slot')
    ensures var s1 := RevealStep(ctx, s, slot);
      RevealStep(ctx, s1, slot') == s1
  {
  }

  /** A reveal with no commitment, or with one for another era, is a silent no-op. */
  lemma RevealWithoutMatchingCommitment(ctx: Context, s: NodeState, slot: Slot)
    requires s.commitment.None? || s.commitment.value.era != EraOf(ctx, slot)
    ensures RevealStep(ctx, s, slot) == s
  {
  }

  /** Repeated ticks in one timeframe produce at most one block. */
  lemma SignIdempotent(ctx: Context, s: NodeState, slot: Slot)
    ensures var s1 := SignStep(ctx, s, slot);
      SignStep(ctx, s1, slot) == s1
  {
  }

  /**
   * Dispatch of a tick: in a COMMIT phase only the commit step runs, in a
   * REVEAL phase only the reveal step, in any other phase neither; block
   * production runs after it in every phase.
   */
  lemma TickDispatch(ctx: Context, s: NodeState, t: TickInput)
    ensures t.epoch == Commit ==> TickStep(ctx, s, t) == SignStep(ctx, CommitStep(ctx, s, t.slot, t.entropy), t.slot)
    ensures t.epoch == Reveal ==> TickStep(ctx, s, t) == SignStep(ctx, RevealStep(ctx, s, t.slot), t.slot)
    ensures t.epoch == Other ==> TickStep(ctx, s, t) == SignStep(ctx, s, t.slot)
  {
  }
}
