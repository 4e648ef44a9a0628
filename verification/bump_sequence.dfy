/** The bump-sequence operation of the transaction builder and its XDR form. */
module OpBumpSequence {
  import opened Wrappers
  import opened Errors
  import Xdr

  /**
   * A BumpSequence operation. SourceAccount is the ID that the operation's
   * optional source account reports, None when that account is nil.
   */
  datatype BumpSequence = BumpSequence(BumpTo: Xdr.Int64, SourceAccount: Option<Xdr.AccountId>)

  /**
   * SetOpSourceAccount, whose code is not modelled here, is taken to
   * leave the operation alone for a nil account and otherwise to set the
   * operation's source to the account's ID.
   */
  function SetOpSourceAccount(op: Xdr.Operation, account: Option<Xdr.AccountId>): Xdr.Operation
  {
    match account
    case None => op
    case Some(id) => op.(SourceAccount := Some(id))
  }

  /** The union arm BuildXDR asks for. */
  function BumpArm(bs: BumpSequence): Xdr.OperationArm
  {
    Xdr.BumpSequenceArm(Xdr.BumpSequenceOp(bs.BumpTo))
  }

  /** The bump target an XDR operation carries, if it is a well-formed bump-sequence operation. */
  function BumpToOf(op: Xdr.Operation): Option<Xdr.Int64>
  {
    if op.Body.Type == Xdr.OperationTypeBumpSequence && op.Body.Arm.BumpSequenceArm? then
      Some(op.Body.Arm.op.BumpTo)
    else
      None
  }

  /**
   * BuildXDR returns the Go pair (operation, error): the zero operation and
   * a wrapped error when the union constructor refuses, otherwise an
   * operation that carries the bump target back and the operation's source.
   */
  function BuildXDR(bs: BumpSequence, newBody: Xdr.BodyConstructor): (r: (Xdr.Operation, Option<Error>))
    ensures r.1.None? <==> newBody(Xdr.OperationTypeBumpSequence, BumpArm(bs)).Success?
    ensures r.1.Some? ==>
      && r.0 == Xdr.ZeroOperation
      && r.1.value == Wrap(newBody(Xdr.OperationTypeBumpSequence, BumpArm(bs)).error, "failed to build XDR OperationBody")
      && BumpToOf(r.0) == None
    ensures r.1.None? ==> r.0.SourceAccount == bs.SourceAccount
    ensures r.1.None? ==> r.0.Body == newBody(Xdr.OperationTypeBumpSequence, BumpArm(bs)).value
    ensures r.1.None? && Xdr.IsUnionConstructor(newBody) ==>
      r.0.Body.Type == Xdr.OperationTypeBumpSequence && BumpToOf(r.0) == Some(bs.BumpTo)
  {
    match newBody(Xdr.OperationTypeBumpSequence, BumpArm(bs))
    case Failure(err) => (Xdr.ZeroOperation, Some(Wrap(err, "failed to build XDR OperationBody")))
    case Success(body) => (SetOpSourceAccount(Xdr.Operation(None, body), bs.SourceAccount), None)
  }
}
