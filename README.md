# Node consensus driver: a Dafny model

This project models the `Node` driver of a permissioned, DAG-structured
proof-of-stake chain client (`chain/node.py`). The driver runs a duty
cycle. On each tick it reads the current timeframe (slot) and the epoch
phase. In a COMMIT phase it runs the commit step of a commit-reveal
randomness beacon. In a REVEAL phase it runs the reveal step. In every
phase it then tries to produce a block, which it does only when it leads
the slot and the DAG has no block for it yet. The driver also handles
inbound blocks and transactions. A block is added to the DAG when its
signature verifies against the slot leader's key; otherwise the leader is
reported as malicious. A transaction is admitted to the mempool when the
verifier accepts it.

The only value the node itself owns and mutates is the pending randomness
commitment `last_commited_random_key`, a pair (era, reveal key). The
source creates it by assignment, tests for it with `hasattr` and removes
it with `del`. Here it is an `Option<Commitment>` field.

Layout:

- `protocol.dfy` (module `Protocol`): slots, eras, epoch phases, the
  commitment, transactions, signed blocks, messages to the network, the
  DAG as a map from timeframe to blocks, and the collaborators. The
  collaborators are the ledger queries, leader selection, key derivation,
  block signing, `enc_part_random`, the codecs, signature checking and the
  transaction verifier. Each is given to the node as a function of what
  it reads.
- `duties.dfy` (module `Duties`): each duty as a function from the node's
  state before a call to its state after it, with the duty's guarantee as
  its contract, and lemmas about single duties.
- `node.dfy` (module `NodeDriver`): `class Node` with the commitment, DAG,
  mempool and outbound message log as fields. Its imperative methods
  follow the source's methods statement by statement, and each is proved
  to produce the state its duty's function describes.
- `runs.dfy` (module `Runs`): runs are any interleaving of ticks and
  inbound messages. Lemmas over runs show:
  - commits and reveals each occur at most once per era, in strictly
    increasing era order;
  - every reveal discloses the key of an earlier commit of the same era;
  - a missed reveal never locks the node out;
  - the node never signs two blocks for one timeframe.

Modelling choices:

- The network is an append-only log (`outbox`) of what the node hands to
  `broadcast_block`, `broadcast_transaction` and `gossip_malicious`. The
  log holds transactions and blocks as values, before packing.
- `dag.sign_block` is modelled as assembling and signing a block and
  recording it in the DAG for the current timeframe. The Dag source is not
  part of this model. This recording is what makes production idempotent
  within a slot: after a successful production a block is present, so the
  guard fails on every later tick of that slot.
- Clock readings, `enc_part_random`'s randomness and the collaborators'
  answers are inputs. A tick takes the slot, the epoch phase and the
  entropy; a handler takes the slot at which it runs.
- The per-era at-most-once lemmas assume an ordered clock
  (`Runs.RevealsPrecedeLaterCommits`): after a REVEAL tick of era e, every
  COMMIT tick is of an era later than e. Without that assumption a COMMIT
  phase of era e after its reveal would commit again. The lemma that every
  reveal follows a matching commit needs no assumption about the clock.

In these places the model follows the code as written:

- The block handler checks the signature against the leader of the
  timeframe current when the message is handled (chain/node.py:75-80),
  not the leader of the block's own slot. It also adds the block to the
  DAG at that current timeframe.
- The handlers do not catch decode errors; a failed parse raises before
  anything is changed. The model treats bytes that do not decode as
  leaving the state unchanged.
- The reveal transaction carries the fixed reference 1234567890
  (chain/node.py:68), not the hash of the earlier commit. The model keeps
  the constant (`Protocol.PlaceholderCommitHash`) and states no property
  about it. The reveal's key is the stored key.

## Model

| member | source | states |
|---|---|---|
| `Protocol.AddSignedBlock` | chain/node.py:81 | adding a block for a timeframe makes a block present there, appends to that timeframe's blocks and keeps every other timeframe as it was |
| `Duties.CommitStep` | chain/node.py:49-60 | when no commitment is pending or the pending one is of an earlier era, exactly one commit transaction with the share is broadcast and the commitment becomes (current era, reveal key), replacing a stale one; otherwise nothing changes; DAG and mempool untouched; afterwards the guard is closed for the current era |
| `Duties.RevealStep` | chain/node.py:62-72 | when the pending commitment is of the current era, exactly one reveal transaction with its key is broadcast and the commitment is removed; otherwise nothing changes; afterwards nothing remains to reveal in the era |
| `Duties.SignStep` | chain/node.py:40-47 | a block is signed, recorded and broadcast exactly when the slot leader's key is the node's public key and no block is present for the timeframe; otherwise nothing changes; commitment and mempool never touched; afterwards the node may not sign that timeframe again |
| `Duties.BlockMessageStep` | chain/node.py:74-83 | a block whose signature verifies against the current leader's key is added to the DAG at the current timeframe with nothing reported; otherwise that leader key is gossiped exactly once and the DAG is unchanged; undecodable bytes change nothing; commitment and mempool unchanged |
| `Duties.TransactionMessageStep` | chain/node.py:85-93 | a transaction is appended to the mempool exactly when it decodes and the verifier accepts it against the DAG; otherwise nothing changes; nothing is broadcast |
| `Duties.TickStep` | chain/node.py:30-37 | a tick leaves the mempool alone, sets the commitment as the beacon part (commit in COMMIT, reveal in REVEAL) does, and runs block production in every phase against the DAG the tick began with, its broadcast coming after the beacon's |
| `Duties.CommitIdempotentInEra` | chain/node.py:51-59 | a second commit step in the same era changes nothing, so at most one commit is broadcast per era by repeated ticks |
| `Duties.NoLockoutAfterMissedReveal` | chain/node.py:52-59 | with an unrevealed commitment of an earlier era, the commit step broadcasts one transaction and stores a commitment for the current era |
| `Duties.CommitBlockedByCurrentCommitment` | chain/node.py:51-53 | a pending commitment of the current or a later era makes the commit step a no-op |
| `Duties.RevealOnceInEra` | chain/node.py:64-71 | after a reveal step, another reveal step in the same era changes nothing |
| `Duties.RevealWithoutMatchingCommitment` | chain/node.py:64-66 | with no commitment, or one of another era, the reveal step broadcasts nothing and changes nothing |
| `Duties.SignIdempotent` | chain/node.py:43-45 | block production repeated in the same timeframe changes nothing the second time |
| `Duties.TickDispatch` | chain/node.py:31-37 | in a COMMIT phase only the commit step runs, in a REVEAL phase only the reveal step, in any other phase neither; block production runs after it in every phase |
| `NodeDriver.Node.constructor` | chain/node.py:16-24 | a new node has no commitment, an empty mempool, nothing sent, and the given ledger |
| `NodeDriver.Node.Tick` | chain/node.py:30-37 | one loop iteration leaves exactly the state of `Duties.TickStep`; mempool unchanged |
| `NodeDriver.Node.TryToSignBlock` | chain/node.py:40-47 | leaves the state of `Duties.SignStep`; something is broadcast iff the node may sign; commitment and mempool unchanged |
| `NodeDriver.Node.TryToCommitRandom` | chain/node.py:49-60 | leaves the state of `Duties.CommitStep`; something is broadcast iff the commit guard held; afterwards a commitment of the current or a later era is pending |
| `NodeDriver.Node.TryToRevealRandom` | chain/node.py:62-72 | leaves the state of `Duties.RevealStep`; something is broadcast iff a commitment of the current era was pending, and then the commitment is gone |
| `NodeDriver.Node.HandleBlockMessage` | chain/node.py:74-83 | leaves the state of `Duties.BlockMessageStep`; commitment and mempool unchanged |
| `NodeDriver.Node.HandleTransactionMessage` | chain/node.py:85-93 | leaves the state of `Duties.TransactionMessageStep`; commitment, DAG and outbound log unchanged |
| `Runs.Trace` | chain/node.py:29-38 | a run's state sequence starts at the initial state and each next state is one serialized call applied to the one before |
| `Runs.TickEffect` | chain/node.py:31-72 | a tick broadcasts at most one beacon transaction (commit with the share when the commit guard holds in COMMIT, reveal with the stored key when the reveal guard holds in REVEAL) followed by at most one block (exactly when the node may sign), and sets the commitment accordingly |
| `Runs.StepCommitment` | chain/node.py:49-93 | among all calls, only a committing tick (stores the new commitment) and a revealing tick (removes it) change the commitment |
| `Runs.StepDag` | chain/node.py:40-83 | no call removes a timeframe from the DAG, and a producing tick leaves a block present for its timeframe |
| `Runs.CommitmentHeld` | chain/node.py:52-59 | after a commit of era e the node holds a commitment of era e or later until a REVEAL tick of era e or later |
| `Runs.CommitErasIncrease` | chain/node.py:49-60 | on an ordered clock, of two commits in a run the later is for a strictly later era: at most one commit per era |
| `Runs.RevealedEraCleared` | chain/node.py:62-72 | after a reveal of era e the node holds no commitment of era e or earlier while COMMIT ticks are of later eras |
| `Runs.RevealErasIncrease` | chain/node.py:62-72 | on an ordered clock, of two reveals in a run the later is for a strictly later era: at most one reveal per era |
| `Runs.CommitmentOrigin` | chain/node.py:59-71 | from no commitment, any commitment held was stored by an earlier committing tick |
| `Runs.RevealFollowsCommit` | chain/node.py:64-69 | from no commitment, every reveal is preceded by a commit of the same era whose reveal key it discloses |
| `Runs.CommitmentStaysBelow` | chain/node.py:52-59 | while every COMMIT tick so far is of an era before E, any commitment held is for an era before E, whatever ticks of other phases came |
| `Runs.NoLockout` | chain/node.py:52-59 | the first COMMIT tick of a new era commits, however many earlier commitments went unrevealed and whatever ticks of other phases (of any era) came before it |
| `Runs.DagKeysGrow` | chain/node.py:40-83 | along a run, a timeframe that holds a block keeps holding one |
| `Runs.BlockOncePerSlot` | chain/node.py:40-47 | along any run with any interleaving of messages, the node signs at most one block per timeframe |
| `Runs.BeaconRound` | chain/node.py:49-72 | from no commitment: a commit in era e stores (e, key) and broadcasts the commit; the reveal in e broadcasts that key and clears it; had it been missed, a commit in a later era still succeeds |
| `Runs.LeaderTickTwice` | chain/node.py:37-47 | in every phase, a leader without a block for its timeframe broadcasts exactly that one block after the tick's beacon messages, and a repeated tick in that timeframe and phase broadcasts nothing |

## Left out

- The infinite `while True` loop and `asyncio.sleep(3)` (timing and cooperative scheduling): one iteration is `Node.Tick`, and a run is a finite sequence of calls.
- `start()`: it is an empty stub.
- The `print` diagnostics in the handlers: they have no effect on state.
- Cryptography (`enc_part_random`, `publickey()`, `verify_signature`, and how `sign_block` builds and signs a block): unseen foreign code. These are functions handed to the node, with no properties assumed.
- Packing and parsing of transactions and signed blocks, and their round trip: the codec is not part of this model. Outbound transactions and blocks are logged as values; inbound bytes go through a parse function that may fail.
- The internals of `Dag`, `Permissions`, `Mempool` and `TransactionVerifier`: they are not part of this model. The DAG is a map from timeframe to blocks, the mempool a sequence that admission appends to, and leader selection, era hashes and validity are functions of the DAG. Era numbering is a function of the timeframe alone: `get_era_number` is taken not to depend on the DAG's contents, and every per-era lemma relies on that.
- Whether `dag.sign_block` records the block it signs: the Dag code is not part of this model, and the model takes it to add the block to the DAG for the current timeframe. `Duties.SignIdempotent`, `Runs.BlockOncePerSlot` and `Runs.LeaderTickTwice` rest on that assumption; a ledger that did not record its own blocks would let repeated ticks in one timeframe sign again until the block arrived from the network.
- The hash reference of the reveal transaction: the source uses a fixed placeholder, and no property rests on it.
- Several clock reads within one tick: the source reads the clock at chain/node.py:31, 32, 34 and inside `is_current_timeframe_block_present`. The model takes one reading per tick (slot and phase) and uses it throughout.
- Concurrency between the tick and the handlers: calls into one `Node` are taken to be serialized.
- Failures of collaborators (exceptions from the DAG, network or codec): not modelled. A failed parse is modelled as a call that changes nothing.
