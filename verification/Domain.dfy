// The value objects of the engine (domain/) and the machine integers that the
// ledger and the lottery compute with.
module Domain {

  // ---------------------------------------------------------------- results

  datatype Option<+T> = None | Some(value: T)

  datatype Result<+T, +E> = Ok(value: T) | Err(error: E)

  // --------------------------------------------------------- machine integers

  const TWO_64: int := 0x1_0000_0000_0000_0000
  const MAX_UINT64: int := 0xFFFF_FFFF_FFFF_FFFF
  const MAX_INT64: int := 0x7FFF_FFFF_FFFF_FFFF
  const MIN_INT64: int := -0x8000_0000_0000_0000

  type Uint64 = n: int | 0 <= n <= MAX_UINT64
  type Int64 = n: int | MIN_INT64 <= n <= MAX_INT64

  // Two's-complement truncation to 64 bits: the meaning of Go's + and - on
  // uint64 and of a conversion to uint64.
  function WrapUint64(x: int): (r: Uint64)
    ensures 0 <= x <= MAX_UINT64 ==> r == x
  {
    x % TWO_64
  }

  // The same for int (64-bit) and for a conversion to int.
  function WrapInt64(x: int): (r: Int64)
    ensures MIN_INT64 <= x <= MAX_INT64 ==> r == x
  {
    (x - MIN_INT64) % TWO_64 + MIN_INT64
  }

  // ------------------------------------------------------------ value objects

  datatype Account = Account(balance: Int64, nonce: Uint64)

  type State = map<string, Account>

  datatype Transaction = Transaction(
    from: string,
    to: string,
    amount: Int64,
    fee: Int64,
    nonce: Uint64,
    pubKey: string,
    signature: string,
    hash: string)

  datatype Block = Block(
    index: nat,
    prevHash: string,
    slot: nat,
    tick: nat,
    validator: string,
    txRoot: string,
    stateRoot: string,
    pohHash: string,
    signature: string,
    hash: string,
    txs: seq<Transaction>)

  // An ECDSA private key, opaque to the engine.
  datatype PrivateKey = PrivateKey(id: nat)

  datatype Validator = Validator(name: string, stake: int, pubKey: string, privKey: Option<PrivateKey>)

  datatype ValidatorStats = ValidatorStats(missedSlots: nat, jailedUntilEpoch: nat, slashed: bool)

  // What the PrevHash field of the first block holds, and the name its
  // producer field carries.
  const GENESIS_PARENT := "GENESIS"
  const GENESIS_NAME := "genesis"
}
