/**
 * Runs of one node: any interleaving of duty-cycle ticks and inbound block
 * and transaction messages, each applied to the state the previous one left.
 * The lemmas here state what holds over whole runs: commits and reveals
 * happen at most once per era and in increasing era order, every reveal
 * discloses the key of an earlier commit for the same era, a missed reveal
 * never locks the node out, and no timeframe gets two blocks from this node.
 */
module Runs {
  import opened Protocol
  import opened Duties

  /** One serialized call into the node. */
  datatype Input =
    | TickIn(tick: TickInput)
    | BlockIn(slot: Slot, sender: NodeId, raw: Bytes)
    | TxIn(sender: NodeId, raw: Bytes)

  function Step(ctx: Context, s: NodeState, i: Input): NodeState {
    match i
    case TickIn(t) => TickStep(ctx, s, t)
    case BlockIn(slot, _, raw) => BlockMessageStep(ctx, s, slot, raw)
    case TxIn(_, raw) => TransactionMessageStep(ctx, s, raw)
  }

  /** The states a run passes through: the first is `s`, each next one is the step from the one before. */
  function Trace(ctx: Context, s: NodeState, ins: seq<Input>): (tr: seq<NodeState>)
    ensures |tr| == |ins| + 1 && tr[0] == s
    ensures forall k :: 0 <= k < |ins| ==> tr[k + 1] == Step(ctx, tr[k], ins[k])
    decreases |ins|
  {
    if ins == [] then [s]
    else [s] + Trace(ctx, Step(ctx, s, ins[0]), ins[1..])
  }

  /** The input is a COMMIT-phase tick whose commit step broadcasts a commitment. */
  predicate CommitsAt(ctx: Context, s: NodeState, i: Input) {
    i.TickIn? && i.tick.epoch == Commit && MayCommit(s.commitment, EraOf(ctx, i.tick.slot))
  }

  /** The input is a REVEAL-phase tick whose reveal step broadcasts a reveal. */
  predicate RevealsAt(ctx: Context, s: NodeState, i: Input) {
    i.TickIn? && i.tick.epoch == Reveal && MayReveal(s.commitment, EraOf(ctx, i.tick.slot))
  }

  /** The input is a tick at which this node signs and broadcasts a block. */
  predicate ProducesAt(ctx: Context, s: NodeState, i: Input) {
    i.TickIn? && MaySign(ctx, s.dag, i.tick.slot)
  }

  /** The commitment a committing tick stores. */
  function CommitmentMadeAt(ctx: Context, s: NodeState, t: TickInput): Commitment {
    var era := EraOf(ctx, t.slot);
    Commitment(era, CommitShare(ctx, s.dag, era, t.entropy).1)
  }

  /**
   * The clock never shows a REVEAL phase before a COMMIT phase of the same
   * or an earlier era: each era's commit window precedes its reveal window
   * and eras do not go back.
   */
  predicate RevealsPrecedeLaterCommits(ctx: Context, ins: seq<Input>) {
    forall i, j ::
      (0 <= i < j < |ins| && ins[i].TickIn? && ins[j].TickIn? &&
       ins[i].tick.epoch == Reveal && ins[j].tick.epoch == Commit) ==>
      EraOf(ctx, ins[i].tick.slot) < EraOf(ctx, ins[j].tick.slot)
  }

  // ---------------------------------------------------------------------------
  // One input

  /**
   * What one tick hands to the network: at most one beacon transaction (a
   * commit carrying the share, or a reveal carrying the pending key) and
   * then at most one block; and what it does to the commitment.
   */
  lemma TickEffect(ctx: Context, s: NodeState, t: TickInput)
    ensures TickStep(ctx, s, t).outbox == s.outbox
      + (if CommitsAt(ctx, s, TickIn(t)) then
           [TxBroadcast(ctx.nodeId, CommitRandom(CommitShare(ctx, s.dag, EraOf(ctx, t.slot), t.entropy).0))]
         else if RevealsAt(ctx, s, TickIn(t)) then
           [TxBroadcast(ctx.nodeId, RevealRandom(PlaceholderCommitHash, s.commitment.value.revealKey))]
         else [])
      + (if ProducesAt(ctx, s, TickIn(t)) then
           [BlockBroadcast(ctx.nodeId, ctx.services.signBlock(s.dag, ctx.privateKey))]
         else [])
    ensures TickStep(ctx, s, t).commitment ==
      if CommitsAt(ctx, s, TickIn(t)) then Some(CommitmentMadeAt(ctx, s, t))
      else if RevealsAt(ctx, s, TickIn(t)) then None
      else s.commitment
  {
  }

  /** How any input changes the commitment: only committing and revealing ticks touch it. */
  lemma StepCommitment(ctx: Context, s: NodeState, i: Input)
    ensures Step(ctx, s, i).commitment ==
      if CommitsAt(ctx, s, i) then Some(CommitmentMadeAt(ctx, s, i.tick))
      else if RevealsAt(ctx, s, i) then None
      else s.commitment
  {
  }

  /** No input removes a timeframe from the DAG, and a producing tick adds its own. */
  lemma StepDag(ctx: Context, s: NodeState, i: Input)
    ensures s.dag.Keys <= Step(ctx, s, i).dag.Keys
    ensures ProducesAt(ctx, s, i) ==> BlockPresent(Step(ctx, s, i).dag, i.tick.slot)
  {
  }

  // ---------------------------------------------------------------------------
  // Commitments along a run

  /**
   * After a commit for era e, the node keeps a commitment for era e or later
   * as long as no REVEAL tick of era e or later comes.
   */
  lemma {:induction false} CommitmentHeld(ctx: Context, s: NodeState, ins: seq<Input>, i: nat, k: nat)
    requires i < k <= |ins|
    requires CommitsAt(ctx, Trace(ctx, s, ins)[i], ins[i])
    requires forall m :: i < m < k && ins[m].TickIn? && ins[m].tick.epoch == Reveal ==>
      EraOf(ctx, ins[m].tick.slot) < EraOf(ctx, ins[i].tick.slot)
    ensures Trace(ctx, s, ins)[k].commitment.Some?
    ensures Trace(ctx, s, ins)[k].commitment.value.era >= EraOf(ctx, ins[i].tick.slot)
    decreases k
  {
    var tr := Trace(ctx, s, ins);
    StepCommitment(ctx, tr[k - 1], ins[k - 1]);
    if k > i + 1 {
      CommitmentHeld(ctx, s, ins, i, k - 1);
    }
  }

  /**
   * Commits happen in strictly increasing era order along a run whose clock
   * is ordered, so the node broadcasts at most one commit per era.
   */
  lemma {:induction false} CommitErasIncrease(ctx: Context, s: NodeState, ins: seq<Input>, i: nat, j: nat)
    requires RevealsPrecedeLaterCommits(ctx, ins)
    requires i < j < |ins|
    requires CommitsAt(ctx, Trace(ctx, s, ins)[i], ins[i])
    requires CommitsAt(ctx, Trace(ctx, s, ins)[j], ins[j])
    ensures EraOf(ctx, ins[i].tick.slot) < EraOf(ctx, ins[j].tick.slot)
  {
    if EraOf(ctx, ins[j].tick.slot) <= EraOf(ctx, ins[i].tick.slot) {
      forall m | i < m < j && ins[m].TickIn? && ins[m].tick.epoch == Reveal
        ensures EraOf(ctx, ins[m].tick.slot) < EraOf(ctx, ins[i].tick.slot)
      {
        assert EraOf(ctx, ins[m].tick.slot) < EraOf(ctx, ins[j].tick.slot);
      }
      CommitmentHeld(ctx, s, ins, i, j);
    }
  }

  /**
   * After a reveal in era e, any commitment the node holds is for a later
   * era, as long as every COMMIT tick since was of a later era.
   */
  lemma {:induction false} RevealedEraCleared(ctx: Context, s: NodeState, ins: seq<Input>, i: nat, k: nat)
    requires i < k <= |ins|
    requires RevealsAt(ctx, Trace(ctx, s, ins)[i], ins[i])
    requires forall m :: i < m < k && ins[m].TickIn? && ins[m].tick.epoch == Commit ==>
      EraOf(ctx, ins[i].tick.slot) < EraOf(ctx, ins[m].tick.slot)
    ensures var c := Trace(ctx, s, ins)[k].commitment;
      c.None? || c.value.era > EraOf(ctx, ins[i].tick.slot)
    decreases k
  {
    var tr := Trace(ctx, s, ins);
    StepCommitment(ctx, tr[k - 1], ins[k - 1]);
    if k > i + 1 {
      RevealedEraCleared(ctx, s, ins, i, k - 1);
    }
  }

  /**
   * Reveals happen in strictly increasing era order along a run whose clock
   * is ordered, so the node broadcasts at most one reveal per era.
   */
  lemma {:induction false} RevealErasIncrease(ctx: Context, s: NodeState, ins: seq<Input>, i: nat, j: nat)
    requires RevealsPrecedeLaterCommits(ctx, ins)
    requires i < j < |ins|
    requires RevealsAt(ctx, Trace(ctx, s, ins)[i], ins[i])
    requires RevealsAt(ctx, Trace(ctx, s, ins)[j], ins[j])
    ensures EraOf(ctx, ins[i].tick.slot) < EraOf(ctx, ins[j].tick.slot)
  {
    RevealedEraCleared(ctx, s, ins, i, j);
  }

  /** Every commitment held at some point of a run from no commitment was stored by an earlier committing tick. */
  lemma {:induction false} CommitmentOrigin(ctx: Context, s: NodeState, ins: seq<Input>, k: nat)
    requires s.commitment.None?
    requires k <= |ins|
    requires Trace(ctx, s, ins)[k].commitment.Some?
    ensures exists i ::
      0 <= i < k && CommitsAt(ctx, Trace(ctx, s, ins)[i], ins[i]) &&
      Trace(ctx, s, ins)[k].commitment == Some(CommitmentMadeAt(ctx, Trace(ctx, s, ins)[i], ins[i].tick))
    decreases k
  {
    var tr := Trace(ctx, s, ins);
    StepCommitment(ctx, tr[k - 1], ins[k - 1]);
    if !CommitsAt(ctx, tr[k - 1], ins[k - 1]) {
      CommitmentOrigin(ctx, s, ins, k - 1);
    }
  }

  /**
   * No reveal without a matching commitment: in a run from no commitment,
   * every reveal discloses the key stored by an earlier commit of the same era.
   */
  lemma RevealFollowsCommit(ctx: Context, s: NodeState, ins: seq<Input>, j: nat)
    requires s.commitment.None?
    requires j < |ins|
    requires RevealsAt(ctx, Trace(ctx, s, ins)[j], ins[j])
    ensures exists i ::
      0 <= i < j && CommitsAt(ctx, Trace(ctx, s, ins)[i], ins[i]) &&
      EraOf(ctx, ins[i].tick.slot) == EraOf(ctx, ins[j].tick.slot) &&
      CommitmentMadeAt(ctx, Trace(ctx, s, ins)[i], ins[i].tick).revealKey ==
        Trace(ctx, s, ins)[j].commitment.value.revealKey
  {
    CommitmentOrigin(ctx, s, ins, j);
  }

  /** While every COMMIT tick seen so far is of an era before `era`, any commitment held is for an era before it. */
  lemma {:induction false} CommitmentStaysBelow(ctx: Context, s: NodeState, ins: seq<Input>, era: Era, k: nat)
    requires k <= |ins|
    requires s.commitment.None? || s.commitment.value.era < era
    requires forall m :: 0 <= m < k && ins[m].TickIn? && ins[m].tick.epoch == Commit ==>
      EraOf(ctx, ins[m].tick.slot) < era
    ensures var c := Trace(ctx, s, ins)[k].commitment; c.None? || c.value.era < era
    decreases k
  {
    if k > 0 {
      var tr := Trace(ctx, s, ins);
      StepCommitment(ctx, tr[k - 1], ins[k - 1]);
      CommitmentStaysBelow(ctx, s, ins, era, k - 1);
    }
  }

  /**
   * No lockout: the first COMMIT tick of a new era commits, whatever
   * commitments of earlier eras were made and never revealed before it and
   * whatever ticks of other phases, of any era, came in between.
   */
  lemma NoLockout(ctx: Context, s: NodeState, ins: seq<Input>, j: nat)
    requires j < |ins| && ins[j].TickIn? && ins[j].tick.epoch == Commit
    requires s.commitment.None? || s.commitment.value.era < EraOf(ctx, ins[j].tick.slot)
    requires forall m :: 0 <= m < j && ins[m].TickIn? && ins[m].tick.epoch == Commit ==>
      EraOf(ctx, ins[m].tick.slot) < EraOf(ctx, ins[j].tick.slot)
    ensures CommitsAt(ctx, Trace(ctx, s, ins)[j], ins[j])
  {
    CommitmentStaysBelow(ctx, s, ins, EraOf(ctx, ins[j].tick.slot), j);
  }

  // ---------------------------------------------------------------------------
  // Blocks along a run

  /** Timeframes holding a block keep holding one. */
  lemma {:induction false} DagKeysGrow(ctx: Context, s: NodeState, ins: seq<Input>, i: nat, k: nat)
    requires i <= k <= |ins|
    ensures Trace(ctx, s, ins)[i].dag.Keys <= Trace(ctx, s, ins)[k].dag.Keys
    decreases k
  {
    if k > i {
      var tr := Trace(ctx, s, ins);
      StepDag(ctx, tr[k - 1], ins[k - 1]);
      DagKeysGrow(ctx, s, ins, i, k - 1);
    }
  }

  /** Along any run, with any interleaving of messages, the node signs at most one block per timeframe. */
  lemma BlockOncePerSlot(ctx: Context, s: NodeState, ins: seq<Input>, i: nat, j: nat)
    requires i < j < |ins|
    requires ProducesAt(ctx, Trace(ctx, s, ins)[i], ins[i])
    requires ProducesAt(ctx, Trace(ctx, s, ins)[j], ins[j])
    ensures ins[i].tick.slot != ins[j].tick.slot
  {
    var tr := Trace(ctx, s, ins);
    StepDag(ctx, tr[i], ins[i]);
    DagKeysGrow(ctx, s, ins, i + 1, j);
  }

  // ---------------------------------------------------------------------------
  // Scenarios

  /**
   * One beacon round and a skipped one: commit with no prior commitment in
   * era e, reveal in e's REVEAL phase, and, had the reveal been missed, a
   * commit in era e' > e still succeeds.
   */
  lemma BeaconRound(ctx: Context, s: NodeState, t1: TickInput, t2: TickInput, t3: TickInput)
    requires s.commitment.None?
    requires t1.epoch == Commit && t2.epoch == Reveal && t3.epoch == Commit
    requires EraOf(ctx, t1.slot) == EraOf(ctx, t2.slot) < EraOf(ctx, t3.slot)
    ensures var s1 := TickStep(ctx, s, t1);
      s1.commitment == Some(CommitmentMadeAt(ctx, s, t1)) &&
      s1.outbox[|s.outbox|] == TxBroadcast(ctx.nodeId, CommitRandom(CommitShare(ctx, s.dag, EraOf(ctx, t1.slot), t1.entropy).0))
    ensures var s1 := TickStep(ctx, s, t1); var s2 := TickStep(ctx, s1, t2);
      s2.commitment == None &&
      s2.outbox[|s1.outbox|] == TxBroadcast(ctx.nodeId, RevealRandom(PlaceholderCommitHash, s1.commitment.value.revealKey))
    ensures var s1 := TickStep(ctx, s, t1); var s3 := TickStep(ctx, s1, t3);
      s3.commitment == Some(CommitmentMadeAt(ctx, s1, t3))
  {
  }

  /**
   * In any phase, a leader with no block yet for its timeframe broadcasts
   * exactly one block after the tick's beacon messages; a repeated tick in
   * that timeframe and phase broadcasts nothing at all.
   */
  lemma LeaderTickTwice(ctx: Context, s: NodeState, t: TickInput)
    requires MaySign(ctx, s.dag, t.slot)
    ensures var s1 := TickStep(ctx, s, t);
      s1.outbox == BeaconStep(ctx, s, t).outbox + [BlockBroadcast(ctx.nodeId, ctx.services.signBlock(s.dag, ctx.privateKey))] &&
      TickStep(ctx, s1, t).outbox == s1.outbox
  {
  }
}
