/**
 * The XDR values the transaction builder writes. Encoding and decoding are
 * not part of this model: only the shape of the values and Go's fixed-width
 * integer conversions that the builder applies to them.
 */
module Xdr {
  import opened Wrappers
  import opened Errors

  const MinInt64: int := -0x8000_0000_0000_0000
  const MaxInt64: int := 0x7fff_ffff_ffff_ffff

  type Int32 = x: int | -0x8000_0000 <= x < 0x8000_0000
  type Int64 = x: int | -0x8000_0000_0000_0000 <= x < 0x8000_0000_0000_0000
  type Uint32 = x: int | 0 <= x < 0x1_0000_0000
  type Uint64 = x: int | 0 <= x < 0x1_0000_0000_0000_0000

  /** Go's conversion of an integer to uint32: the low 32 bits survive. */
  function ToUint32(x: int): (r: Uint32)
    ensures 0 <= x < 0x1_0000_0000 ==> r == x
  {
    x % 0x1_0000_0000
  }

  /** Go's conversion of an int64 to uint64: a negative value wraps. */
  function ToUint64(x: Int64): (r: Uint64)
    ensures x >= 0 ==> r == x
    ensures x < 0 ==> r == x + 0x1_0000_0000_0000_0000
  {
    x % 0x1_0000_0000_0000_0000
  }

  /** Two's-complement wrap-around of Go's int64 arithmetic. */
  function WrapInt64(x: int): (r: Int64)
    ensures MinInt64 <= x <= MaxInt64 ==> r == x
  {
    (x - MinInt64) % 0x1_0000_0000_0000_0000 + MinInt64
  }

  type SequenceNumber = Int64

  /** A strkey account address; the 32-byte key it decodes to is not modelled. */
  type AccountId = string

  /** The operation-type discriminant; only the bump-sequence value is named. */
  datatype OperationType = OperationTypeBumpSequence | OtherOperationType(code: nat)

  datatype BumpSequenceOp = BumpSequenceOp(BumpTo: SequenceNumber)

  /** The arm of the operation-body union; NoArm is the zero value. */
  datatype OperationArm = NoArm | BumpSequenceArm(op: BumpSequenceOp) | OtherArm(tag: nat)

  datatype OperationBody = OperationBody(Type: OperationType, Arm: OperationArm)

  datatype Operation = Operation(SourceAccount: Option<AccountId>, Body: OperationBody)

  /** `xdr.Operation{}`: no source account, a body with the zero discriminant and no arm. */
  const ZeroOperation: Operation := Operation(None, OperationBody(OtherOperationType(0), NoArm))

  /** The shape of `xdr.NewOperationBody`, whose code is not part of this model. */
  type BodyConstructor = (OperationType, OperationArm) -> Result<OperationBody, Error>

  /** A union constructor that, when it succeeds, stores exactly the discriminant and arm it was given. */
  ghost predicate IsUnionConstructor(newBody: BodyConstructor)
  {
    forall t, v :: newBody(t, v).Success? ==> newBody(t, v).value == OperationBody(t, v)
  }

  datatype TimeBounds = TimeBounds(MinTime: Uint64, MaxTime: Uint64)

  datatype Memo = MemoNone | MemoSome(payload: seq<bv8>)

  datatype DecoratedSignature = DecoratedSignature(Hint: seq<bv8>, Signature: seq<bv8>)

  datatype Transaction = Transaction(
    SourceAccount: AccountId,
    Fee: Uint32,
    SeqNum: SequenceNumber,
    TimeBounds: Option<TimeBounds>,
    Memo: Memo,
    Operations: seq<Operation>)

  /** `xdr.Transaction{}`. */
  const ZeroTransaction: Transaction := Transaction("", 0, 0, None, MemoNone, [])

  datatype TransactionEnvelope = TransactionEnvelope(Tx: Transaction, Signatures: seq<DecoratedSignature>)

  /** The XDR maximum size of a Signature, in bytes. */
  const SignatureMaxSize: nat := 64
}
