/**
 * Values the Node driver of a permissioned DAG proof-of-stake chain works with:
 * slots, eras, epoch phases, the pending randomness commitment, the
 * transactions and blocks it sends and receives, the local DAG, and the
 * collaborators (ledger queries, leader selection, cryptography, codecs,
 * transaction verification) it calls but does not implement.
 */
module Protocol {

  datatype Option<+T> = None | Some(value: T)

  type Bytes = seq<bv8>
  type NodeId = nat
  /** Number of a block timeframe ("current timeframe block number"). */
  newtype Slot = x: int | 0 <= x
  /** Number of an era; a type of its own so that it cannot be mixed up with a timeframe. */
  newtype Era = x: int | 0 <= x

  /** Which sub-window of an era the current timeframe falls in. */
  datatype Epoch = Commit | Reveal | Other

  /**
   * The node's pending randomness commitment: the era it was made for and
   * the key that will reveal the committed share. The node holds at most one.
   */
  datatype Commitment = Commitment(era: Era, revealKey: Bytes)

  /** A block with its signature; the content is opaque to the driver. */
  datatype SignedBlock = SignedBlock(block: Bytes, signature: Bytes)

  /**
   * Transactions: the two beacon transactions the driver builds, and any
   * other kind a peer may send, kept opaque.
   */
  datatype Transaction =
    | CommitRandom(rand: Bytes)
    | RevealRandom(commitHash: int, key: Bytes)
    | OtherTx(payload: Bytes)

  /** The fixed reference value the driver puts in every reveal transaction. */
  const PlaceholderCommitHash: int := 1234567890

  /** What the node hands to the network layer. */
  datatype Message =
    | BlockBroadcast(sender: NodeId, block: SignedBlock)
    | TxBroadcast(sender: NodeId, tx: Transaction)
    | MaliciousGossip(offender: Bytes)

  /** The local DAG as far as the driver sees it: the blocks held per timeframe. */
  type Dag = map<Slot, seq<SignedBlock>>

  /** Whether the DAG already holds a block for the timeframe. */
  predicate BlockPresent(dag: Dag, slot: Slot) {
    slot in dag
  }

  /** The DAG after a block has been added for a timeframe. */
  function AddSignedBlock(dag: Dag, slot: Slot, b: SignedBlock): (r: Dag)
    ensures BlockPresent(r, slot)
    ensures r.Keys == dag.Keys + {slot}
    ensures r[slot] == (if slot in dag then dag[slot] else []) + [b]
    ensures forall x :: x in dag && x != slot ==> r[x] == dag[x]
  {
    dag[slot := (if slot in dag then dag[slot] else []) + [b]]
  }

  /**
   * The collaborators of the driver, as functions of what they read:
   *   eraNumber        dag.get_era_number(slot)
   *   eraHash          dag.get_era_hash(era), the beacon seed of an era
   *   leaderKey        permissions.get_permission(dag, slot).public_key
   *   publicKeyOf      private_key.publickey()
   *   signBlock        dag.sign_block(private_key): assembles and signs a block
   *   encPartRandom    enc_part_random(seed) with the entropy it draws: (data, key)
   *   parseSignedBlock SignedBlock.parse, None when the bytes do not decode
   *   verifySignature  SignedBlock.verify_signature(public_key)
   *   parseTransaction TransactionParser.parse, None when the bytes do not decode
   *   checkIfValid     TransactionVerifier(dag).check_if_valid(transaction)
   */
  datatype Collaborators = Collaborators(
    eraNumber: Slot -> Era,
    eraHash: (Dag, Era) -> Bytes,
    leaderKey: (Dag, Slot) -> Bytes,
    publicKeyOf: Bytes -> Bytes,
    signBlock: (Dag, Bytes) -> SignedBlock,
    encPartRandom: (Bytes, Bytes) -> (Bytes, Bytes),
    parseSignedBlock: Bytes -> Option<SignedBlock>,
    verifySignature: (SignedBlock, Bytes) -> bool,
    parseTransaction: Bytes -> Option<Transaction>,
    checkIfValid: (Dag, Transaction) -> bool)

  /** What a node is wired with when it is created: its id, its signing key and its collaborators. */
  datatype Context = Context(nodeId: NodeId, privateKey: Bytes, services: Collaborators)

  /**
   * Everything a call into the node can change: the pending commitment, the
   * DAG, the mempool and the log of what was handed to the network.
   */
  datatype NodeState = NodeState(
    commitment: Option<Commitment>,
    dag: Dag,
    mempool: seq<Transaction>,
    outbox: seq<Message>)
}
