// Shared vocabulary: results, errors, identifiers and the node configuration.
module Types {

  datatype Option<+T> = None | Some(value: T)

  // The Go code returns (value, error); an error aborts the caller.
  datatype Error =
    | NotFound
    | AlreadyExists
    | IdxOverflow
    | NumOverflow
    | NonceOverflow
    | NotInField
    | BadLength
    | Float40Overflow
    | Float40Exponent
    | Float40Precision
    | FeeOverflow
    | NotEnoughBalance
    | IdxNotFound
    | UnexpectedKeyCombination
    | MissingFeeAccumulator
    | ToIdxZero
    | BadRqOffset
    | BadSignature
    | Malformed
    | TooManyTxs
    | NoCheckpoint
    | CheckpointGap
    | Closed
    | NotEmpty

  datatype Result<+T> = Ok(value: T) | Err(error: Error) {
    predicate IsFailure() {
      Err?
    }

    function PropagateFailure<U>(): Result<U>
      requires Err?
    {
      Err(error)
    }

    function Extract(): T
      requires Ok?
    {
      value
    }
  }

  // Account indices are uint64 in the source; every index that reaches the store is at most 48 bits,
  // so the wrap-around of `CurrentIdx + 1` cannot be reached.
  type Idx = nat
  const MAX_IDX: nat := 0xffff_ffff_ffff
  const USER_THRESHOLD: nat := 32
  const RESERVED_IDX: nat := 31

  type TokenID = t: nat | t < 0x1_0000_0000
  // An Ethereum address is 20 bytes, read as a big-endian number.
  type Addr = a: nat | a < 0x1_0000000000000000000000000000000000000000
  const EMPTY_ADDR: Addr := 0
  const FF_ADDR: Addr := 0xffffffffffffffffffffffffffffffffffffffff

  const MAX_NONCE: nat := 0xff_ffff_ffff

  type FeeSelector = f: nat | f < 256
  // The 256 entries of FeeFactorLsh60; everything about the ledger holds for any table.
  type FeeTable = t: seq<nat> | |t| == 256 witness seq(256, _ => 0)

  // A database runs in one of the two live modes.
  datatype Mode = Synchronizer | BatchBuilder

  datatype Config = Config(
    nLevels: nat,
    maxFeeTx: nat,
    maxTx: nat,
    maxL1Tx: nat,
    chainID: nat,
    fees: FeeTable)
}
