/** Transactions, blocks and the records the index keeps about them. */
module Chain {

  const TWO_32: nat := 0x1_0000_0000
  const TWO_63: nat := 0x8000_0000_0000_0000
  const TWO_64: nat := 0x1_0000_0000_0000_0000
  const U32_MAX: nat := 0xffff_ffff
  const U64_MAX: nat := 0xffff_ffff_ffff_ffff

  datatype Option<+T> = None | Some(value: T)

  /** An operation either has a value or fails with a message that says why. */
  datatype Result<+T> = Ok(value: T) | Err(reason: string)

  /** A transaction id: the 256-bit number whose 64 hexadecimal digits are its displayed string. */
  newtype Txid = n: int
    | 0 <= n < 0x1_0000000000000000_0000000000000000_0000000000000000_0000000000000000

  /** The reversed SHA-256 digest of a script, uninterpreted. */
  newtype ScriptHash = n: int
    | 0 <= n < 0x1_0000000000000000_0000000000000000_0000000000000000_0000000000000000

  type u64 = n: nat | n < 0x1_0000_0000_0000_0000

  /** A serialised transaction is never empty, so its weight is positive. */
  type Weight = n: nat | 0 < n witness 1

  datatype OutPoint = OutPoint(txid: Txid, vout: nat)

  const NULL_OUTPOINT := OutPoint(0, U32_MAX)

  datatype TxOut = TxOut(scriptHash: ScriptHash, value: u64)

  /** Equal txids mean equal inputs and outputs; `weight` stands for the witness, which may differ. */
  datatype Tx = Tx(txid: Txid, inputs: seq<OutPoint>, outputs: seq<TxOut>, weight: Weight)

  type Block = seq<Tx>

  datatype Body = Body(inputs: seq<OutPoint>, outputs: seq<TxOut>)

  /** The hash that names transactions: which body, if any, a txid stands for. */
  type Naming = Txid -> Body

  predicate Named(naming: Naming, tx: Tx) {
    naming(tx.txid) == Body(tx.inputs, tx.outputs)
  }

  predicate BlockNamed(naming: Naming, block: Block) {
    forall tx | tx in block :: Named(naming, tx)
  }

  function Txids(block: Block): set<Txid> {
    set tx | tx in block :: tx.txid
  }

  predicate DistinctTxids(block: Block) {
    forall i, j | 0 <= i < j < |block| :: block[i].txid != block[j].txid
  }

  /** What the `outputs` tree stores under an outpoint. */
  datatype Output = Output(scriptHash: ScriptHash, value: u64, height: nat)

  datatype UtxoKey = UtxoKey(scriptHash: ScriptHash, outpoint: OutPoint)

  datatype HistoryKind = Fund | Spend

  datatype HistoryKey =
    HistoryKey(scriptHash: ScriptHash, height: nat, kind: HistoryKind, txid: Txid, sequence: nat)

  datatype TxEntry = TxEntry(txid: Txid, height: nat, sequence: nat)

  datatype JournalKey = JournalKey(height: nat, sequence: nat)

  /** The kind byte and payload of one undo record. */
  datatype Payload =
    | TxMined(txid: Txid)
    | HistoryAdded(key: HistoryKey)
    | OutputAdded(outpoint: OutPoint)
    | OutputSpent(outpoint: OutPoint)

  datatype BlockAction = BlockAction(payload: Payload, key: JournalKey)

  function SaturatingPred(n: nat): nat {
    if n == 0 then 0 else n - 1
  }

  function SaturatingAdd(a: u64, b: u64): (r: u64)
    ensures r == Min(U64_MAX, a + b)
  {
    if a + b > U64_MAX then U64_MAX else a + b
  }

  function SaturatingSub(a: u64, b: u64): (r: u64)
    ensures r == if a < b then 0 else a - b
  {
    if a < b then 0 else a - b
  }

  function Min(a: int, b: int): int {
    if a < b then a else b
  }

  /** `entry(k).or_default().push(v)` */
  function Append<K, V>(m: map<K, seq<V>>, k: K, v: V): map<K, seq<V>> {
    m[k := Get(m, k) + [v]]
  }

  function Get<K, V>(m: map<K, seq<V>>, k: K): seq<V> {
    if k in m then m[k] else []
  }
}
