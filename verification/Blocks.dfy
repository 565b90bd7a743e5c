/**
  Headers, blocks and the network's consensus parameters
  (crates/nightfall-consensus/src/lib.rs, crates/nightfall-types/src/lib.rs).

  Hashing is symbolic: a hash is the term it was computed from, so hashing is injective and a hash
  determines everything below it.  Proof of work is an arbitrary predicate on headers.
 */
module Blocks {
  import opened Wrappers
  import opened Words
  import opened Curve
  import opened Sorting
  import opened Utxos
  import opened Transactions

  datatype Hash =
    | GenesisHash(network: Network)
    | BlockHash(header: BlockHeader)
    | BodyHash(bound: bool, body: Body)
    | UtxoRoot(leaves: map<Bytes32, (Bytes32, nat)>)

  datatype BlockHeader = BlockHeader(version: nat, height: nat, prevHash: Hash, utxoRoot: Hash, kernelSum: Bytes32,
                                     bodyRoot: Hash, timestamp: u64, difficulty: u64, nonce: u64, reward: u64)

  datatype Block = Block(header: BlockHeader, body: Body)

  datatype CompactHeader = CompactHeader(height: nat, hash: Hash, prevHash: Hash, timestamp: u64, difficulty: u64)

  /** The pinned heights, whether they widen the trusted prefix, and the proof-of-work predicate. */
  datatype Config = Config(network: Network, checkpoints: seq<(nat, Hash)>, assumeValid: bool, pow: BlockHeader -> bool)

  const PROTOCOL_VERSION: nat := 8
  const MAX_FUTURE_DRIFT: nat := 120
  const MAX_REORG_DEPTH: nat := 500
  const MAX_TXS_PER_BLOCK: nat := 512

  function HashOf(b: Block): Hash {
    BlockHash(b.header)
  }

  /** The leaves of the UTXO Merkle tree: commitment, one-time key and height, but not the coinbase flag. */
  function RootOf(utxos: Entries): Hash {
    UtxoRoot(map c | c in utxos :: (utxos[c].outputPk, utxos[c].height))
  }

  /** All-zero bytes decode to the identity. */
  const ZERO_BYTES: Bytes32 := Encoding(Identity())

  const ZERO_SIG: Signature := Signature(ZERO_BYTES, SpendMessage(ZERO_BYTES), 0)

  function OrZeros<T>(field: Option<T>, zeros: T): Option<T> {
    if field.None? then Some(zeros) else field
  }

  function HashedInput(i: Input): Input {
    i.(inputKey := OrZeros(i.inputKey, ZERO_BYTES), keySig := OrZeros(i.keySig, ZERO_SIG))
  }

  function HashedKernel(k: Kernel): Kernel {
    k.(stealthExcess := OrZeros(k.stealthExcess, ZERO_BYTES), stealthSig := OrZeros(k.stealthSig, ZERO_SIG))
  }

  /** What the hash of a body with binding fields sees: an absent field reads as zeros. */
  function Hashed(b: Body): Body {
    b.(inputs := MapSeq(HashedInput, b.inputs), kernels := MapSeq(HashedKernel, b.kernels),
       stealthOffset := OrZeros(b.stealthOffset, 0), kernelOffset := OrZeros(b.kernelOffset, 0))
  }

  /** The body hash, in its own domain when any binding field is present. */
  function RootOfBody(b: Body): Hash {
    BodyHash(HasAnyBinding(b), if HasAnyBinding(b) then Hashed(b) else b)
  }

  function Compact(b: Block): CompactHeader {
    CompactHeader(b.header.height, HashOf(b), b.header.prevHash, b.header.timestamp, b.header.difficulty)
  }

  /** `block_work`. */
  function Work(difficulty: u64): nat {
    if difficulty == 0 then 1 else difficulty
  }

  function InitialDifficulty(network: Network): u64 {
    match network
    case Mainnet => 5_000
    case Testnet => 30_000
    case Devnet => 60
  }

  function MinDifficulty(network: Network): u64 {
    match network
    case Mainnet => 2_000
    case Testnet => 1_000
    case Devnet => 1
  }

  /** The pin for a height, first match. */
  function CheckpointAt(checkpoints: seq<(nat, Hash)>, height: nat): Option<Hash> {
    if checkpoints == [] then None
    else if checkpoints[0].0 == height then Some(checkpoints[0].1)
    else CheckpointAt(checkpoints[1..], height)
  }

  /** The highest pinned height, 0 without pins. */
  function HighestCheckpoint(checkpoints: seq<(nat, Hash)>): nat {
    if checkpoints == [] then 0
    else
      var rest := HighestCheckpoint(checkpoints[1..]);
      if checkpoints[0].0 > rest then checkpoints[0].0 else rest
  }

  /** Two ledgers with equal roots hold the same commitments under the same keys and heights. */
  lemma {:induction false} RootDeterminesOutputs(a: Entries, b: Entries)
    requires RootOf(a) == RootOf(b)
    ensures a.Keys == b.Keys
    ensures forall c :: c in a ==> a[c].outputPk == b[c].outputPk && a[c].height == b[c].height
  {
    var la, lb := RootOf(a).leaves, RootOf(b).leaves;
    assert a.Keys == la.Keys && b.Keys == lb.Keys;
    forall c | c in a ensures a[c].outputPk == b[c].outputPk && a[c].height == b[c].height {
      assert la[c] == lb[c];
    }
  }
}
