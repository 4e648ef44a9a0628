/**
 * The transaction builder: a Transaction holds what its user sets (source
 * account, operations, base fee, memo, time bounds, network) and the XDR
 * transaction and envelope that Build, the fee setters and the signers
 * write step by step.
 *
 * Each step is first specified as a function from one TxState to the next
 * (the `...Step` functions), with lemmas about those functions; the class
 * Transaction then performs the steps in place and is proved to agree with
 * them.
 */
module Txnbuild {
  import opened Wrappers
  import opened Errors
  import Xdr
  import OpBumpSequence
  import Friendbot

  // ---------------------------------------------------------------- values

  /** A 32-byte digest. */
  type Digest = s: seq<bv8> | |s| == 32 witness seq(32, _ => 0)

  /** A signing keypair; its key material is not modelled. */
  datatype Keypair = Keypair(Address: string)

  /** A memo the user attaches; its kinds and their XDR form are not modelled. */
  datatype Memo = Memo(Kind: string, Value: string)

  /** The user's time bounds; wasBuilt records construction through the package's constructors. */
  datatype Timebounds = Timebounds(MinTime: Xdr.Int64, MaxTime: Xdr.Int64, wasBuilt: bool)

  /**
   * An operation of the transaction: a bump-sequence operation, or an
   * operation of a kind not in this model, given by its Go type name and
   * the outcome of its BuildXDR.
   */
  datatype Operation =
    | BumpSequence(bs: OpBumpSequence.BumpSequence)
    | OtherOperation(TypeName: string, BuildResult: Result<Xdr.Operation, Error>)

  /**
   * The functions the builder calls into and whose code is not part of this
   * model: key parsing, time-bound validation, memo conversion, the XDR
   * operation-body constructor, network hashing, signing, sha256, XDR
   * marshalling of the envelope and base64 encoding.
   */
  datatype Foreign = Foreign(
    ParseKeypair: string -> Option<Error>,
    ValidateTimebounds: Timebounds -> Option<Error>,
    MemoToXDR: Memo -> Result<Xdr.Memo, Error>,
    NewOperationBody: Xdr.BodyConstructor,
    HashTransaction: (Xdr.Transaction, string) -> Result<Digest, Error>,
    SignDecorated: (Keypair, Digest) -> Result<Xdr.DecoratedSignature, Error>,
    Sha256: seq<bv8> -> Digest,
    MarshalEnvelope: Option<Xdr.TransactionEnvelope> -> Result<seq<bv8>, Error>,
    Base64: seq<bv8> -> string)

  datatype PanicReason = IndexOutOfRange | NilPointerDereference

  /** How a call ends: a nil error, a non-nil error, or a Go panic. */
  datatype Outcome = Ok | Err(error: Error) | Panic(reason: PanicReason)

  /** What the source account's two methods return; the friendbot Account's methods change nothing, so the view is stable. */
  datatype AccountView = AccountView(ID: string, Next: (Xdr.SequenceNumber, Option<Error>))

  /** Everything a Transaction holds. */
  datatype TxState = TxState(
    Source: AccountView,
    Operations: seq<Operation>,
    BaseFee: Xdr.Uint32,
    Memo: Option<Memo>,
    Timebounds: Timebounds,
    Network: string,
    xdrTransaction: Xdr.Transaction,
    xdrEnvelope: Option<Xdr.TransactionEnvelope>)

  const DefaultBaseFee: Xdr.Uint32 := 100

  // ------------------------------------------- building the operations in turn

  /** The elements built before the first failure, and that failure if there was one. */
  datatype Partial<B> = Partial(Done: seq<B>, Failure: Option<Error>)

  /**
   * Applies g to xs in order and stops at the first failure, as the loops
   * of Build and Sign do.
   */
  function MapUntilFailure<A, B>(xs: seq<A>, g: A -> Result<B, Error>): (r: Partial<B>)
    ensures |r.Done| <= |xs|
    ensures forall i :: 0 <= i < |r.Done| ==> g(xs[i]) == Success(r.Done[i])
    ensures r.Failure.None? <==> |r.Done| == |xs|
    ensures r.Failure.Some? ==> g(xs[|r.Done|]) == Failure(r.Failure.value)
  {
    if xs == [] then Partial([], None)
    else
      var p := MapUntilFailure(xs[..|xs| - 1], g);
      if p.Failure.Some? then p
      else
        match g(xs[|xs| - 1])
        case Failure(e) => Partial(p.Done, Some(e))
        case Success(b) => Partial(p.Done + [b], None)
  }

  /** Once the loop has failed on a prefix, the rest of the list is never looked at. */
  lemma {:induction false} FailureIsFinal<A, B>(xs: seq<A>, g: A -> Result<B, Error>, k: nat)
    requires k <= |xs| && MapUntilFailure(xs[..k], g).Failure.Some?
    ensures MapUntilFailure(xs, g) == MapUntilFailure(xs[..k], g)
    decreases |xs| - k
  {
    if k < |xs| {
      assert xs[..k + 1][..k] == xs[..k];
      FailureIsFinal(xs, g, k + 1);
    } else {
      assert xs[..k] == xs;
    }
  }

  /** The interface method Operation.BuildXDR, as a result. */
  function OperationXDR(op: Operation, f: Foreign): Result<Xdr.Operation, Error>
  {
    match op
    case BumpSequence(bs) =>
      var (xop, err) := OpBumpSequence.BuildXDR(bs, f.NewOperationBody);
      if err.Some? then Failure(err.value) else Success(xop)
    case OtherOperation(_, result) => result
  }

  function OperationBuilder(f: Foreign): Operation -> Result<Xdr.Operation, Error>
  {
    op => OperationXDR(op, f)
  }

  /** What `%T` prints for an operation. */
  function TypeName(op: Operation): string
  {
    match op
    case BumpSequence(_) => "*txnbuild.BumpSequence"
    case OtherOperation(name, _) => name
  }

  function Signer(f: Foreign, hash: Digest): Keypair -> Result<Xdr.DecoratedSignature, Error>
  {
    kp => f.SignDecorated(kp, hash)
  }

  // ------------------------------------------------------------- the steps

  /** The fee of a transaction: base fee times operation count, converted to uint32. */
  function FeeFor(baseFee: Xdr.Uint32, opCount: nat): Xdr.Uint32
  {
    Xdr.ToUint32(baseFee * opCount)
  }

  /** The XDR fee agrees with the base fee and the XDR operations, and the base fee is set. */
  ghost predicate FeeConsistent(s: TxState)
  {
    s.BaseFee != 0 && s.xdrTransaction.Fee == FeeFor(s.BaseFee, |s.xdrTransaction.Operations|)
  }

  /** setTransactionFee. */
  function SetTransactionFeeStep(s: TxState): (TxState, Option<Error>)
  {
    if s.BaseFee == 0 then
      (s, Some(New("base fee can not be zero")))
    else
      (s.(xdrTransaction := s.xdrTransaction.(Fee := FeeFor(s.BaseFee, |s.xdrTransaction.Operations|))), None)
  }

  /** TransactionFee: the recomputed fee, or 0 when the base fee is 0. */
  function TransactionFeeStep(s: TxState): (TxState, int)
  {
    var (s', err) := SetTransactionFeeStep(s);
    if err.Some? then (s', 0) else (s', s'.xdrTransaction.Fee)
  }

  /**
   * SetDefaultFee: a zero base fee becomes 100, then setTransactionFee runs.
   * Its panic on a setTransactionFee error cannot happen, since the base fee
   * is then non-zero (see SetDefaultFeeNeverPanics).
   */
  function SetDefaultFeeStep(s: TxState): TxState
  {
    var s1 := if s.BaseFee == 0 then s.(BaseFee := DefaultBaseFee) else s;
    SetTransactionFeeStep(s1).0
  }

  /** The envelope initialisation shared by Build and SignHashX: created once, from the XDR transaction as it is then. */
  function WithEnvelope(s: TxState): TxState
  {
    if s.xdrEnvelope.None? then s.(xdrEnvelope := Some(Xdr.TransactionEnvelope(s.xdrTransaction, []))) else s
  }

  /** Build, from the source-account check to the envelope. */
  function BuildStep(s: TxState, f: Foreign): (TxState, Outcome)
  {
    var id := s.Source.ID;
    if |id| == 0 then (s, Panic(IndexOutOfRange))
    else if id[0] != 'G' then (s, Err(New("invalid public key for transaction source account")))
    else
      match f.ParseKeypair(id)
      case Some(e) => (s, Err(e))
      case None =>
        var s1 := s.(xdrTransaction := s.xdrTransaction.(SourceAccount := id));
        match s.Source.Next
        case (_, Some(e)) => (s1, Err(Wrap(e, "failed to parse sequence number")))
        case (seqnum, None) =>
          var built := MapUntilFailure(s.Operations, OperationBuilder(f));
          var s2 := s1.(xdrTransaction := s1.xdrTransaction.(
            SeqNum := seqnum,
            Operations := s1.xdrTransaction.Operations + built.Done));
          match built.Failure
          case Some(e) =>
            (s2, Err(Wrap(e, "failed to build operation " + TypeName(s.Operations[|built.Done|]))))
          case None =>
            FinishBuildStep(s2, f)
  }

  /** The rest of Build once the operations are appended: time bounds, memo, default fee, envelope. */
  function FinishBuildStep(s: TxState, f: Foreign): (TxState, Outcome)
  {
    match f.ValidateTimebounds(s.Timebounds)
    case Some(e) => (s, Err(e))
    case None =>
      var bounds := Xdr.TimeBounds(Xdr.ToUint64(s.Timebounds.MinTime), Xdr.ToUint64(s.Timebounds.MaxTime));
      var s1 := s.(xdrTransaction := s.xdrTransaction.(TimeBounds := Some(bounds)));
      match s.Memo
      case Some(m) =>
        (match f.MemoToXDR(m)
         case Failure(e) => (s1, Err(Wrap(e, "couldn't build memo XDR")))
         case Success(xm) =>
           (WithEnvelope(SetDefaultFeeStep(s1.(xdrTransaction := s1.xdrTransaction.(Memo := xm)))), Ok))
      case None =>
        (WithEnvelope(SetDefaultFeeStep(s1)), Ok)
  }

  /** The outcome of a signing loop: a wrapped failure or a nil error. */
  function SigningOutcome(failure: Option<Error>): Outcome
  {
    match failure
    case Some(e) => Err(Wrap(e, "failed to sign transaction"))
    case None => Ok
  }

  /**
   * Sign: hashes the XDR transaction for the network, then appends one
   * signature per keypair, stopping at the first that fails. Appending to
   * an envelope that Build has not created dereferences nil.
   */
  function SignStep(s: TxState, kps: seq<Keypair>, f: Foreign): (TxState, Outcome)
  {
    match f.HashTransaction(s.xdrTransaction, s.Network)
    case Failure(e) => (s, Err(Wrap(e, "failed to hash transaction")))
    case Success(hash) =>
      var (env, o) := SignEnvelope(s.xdrEnvelope, MapUntilFailure(kps, Signer(f, hash)));
      (s.(xdrEnvelope := env), o)
  }

  /**
   * The envelope after Sign's loop has produced `signed`: the signatures are
   * appended to an existing envelope; a missing one is dereferenced as soon
   * as there is a signature to append.
   */
  function SignEnvelope(env: Option<Xdr.TransactionEnvelope>, signed: Partial<Xdr.DecoratedSignature>)
    : (Option<Xdr.TransactionEnvelope>, Outcome)
  {
    match env
    case None =>
      if |signed.Done| > 0 then (None, Panic(NilPointerDereference)) else (None, SigningOutcome(signed.Failure))
    case Some(e) =>
      (Some(e.(Signatures := e.Signatures + signed.Done)), SigningOutcome(signed.Failure))
  }

  /** The HashX signature of a preimage: the last four bytes of its sha256 as hint, the preimage itself as signature. */
  function HashXSignature(preimage: seq<bv8>, f: Foreign): Xdr.DecoratedSignature
  {
    Xdr.DecoratedSignature(f.Sha256(preimage)[28..], preimage)
  }

  /** SignHashX: the envelope is created first, then the preimage's length is checked. */
  function SignHashXStep(s: TxState, preimage: seq<bv8>, f: Foreign): (TxState, Outcome)
  {
    var s1 := WithEnvelope(s);
    if |preimage| > Xdr.SignatureMaxSize then
      (s1, Err(New("preimage cannnot be more than 64 bytes")))
    else
      var env := s1.xdrEnvelope.value;
      (s1.(xdrEnvelope := Some(env.(Signatures := env.Signatures + [HashXSignature(preimage, f)]))), Ok)
  }

  /**
   * Base64 over MarshalBinary: the text is the base64 of the marshalled
   * envelope; a marshalling error comes back wrapped twice, once by each.
   */
  function EnvelopeBase64(env: Option<Xdr.TransactionEnvelope>, f: Foreign): (r: Result<string, Error>)
    ensures r.Success? <==> f.MarshalEnvelope(env).Success?
    ensures r.Success? ==> r.value == f.Base64(f.MarshalEnvelope(env).value)
    ensures r.Failure? ==>
      r.error == Wrap(Wrap(f.MarshalEnvelope(env).error, "failed to marshal XDR"), "failed to get XDR bytestring")
  {
    match f.MarshalEnvelope(env)
    case Failure(e) => Failure(Wrap(Wrap(e, "failed to marshal XDR"), "failed to get XDR bytestring"))
    case Success(bytes) => Success(f.Base64(bytes))
  }

  /** An error outcome wrapped with a message; a panic passes through unchanged. */
  function WrapOutcome(o: Outcome, msg: string): Outcome
  {
    match o
    case Err(e) => Err(Wrap(e, msg))
    case _ => o
  }

  /** BuildSignEncode: Build, Sign, Base64, stopping at the first that does not succeed. */
  function BuildSignEncodeStep(s: TxState, kps: seq<Keypair>, f: Foreign): (TxState, string, Outcome)
  {
    var (s1, o1) := BuildStep(s, f);
    if !o1.Ok? then (s1, "", WrapOutcome(o1, "couldn't build transaction"))
    else
      var (s2, o2) := SignStep(s1, kps, f);
      if !o2.Ok? then (s2, "", WrapOutcome(o2, "couldn't sign transaction"))
      else
        match EnvelopeBase64(s2.xdrEnvelope, f)
        case Failure(e) => (s2, "", Err(Wrap(e, "couldn't encode transaction")))
        case Success(text) => (s2, text, Ok)
  }

  // ----------------------------------------------------- properties of the steps

  /** The base fee Build ends up using: SetDefaultFee replaces 0 by 100. */
  function EffectiveBaseFee(baseFee: Xdr.Uint32): Xdr.Uint32
  {
    if baseFee == 0 then DefaultBaseFee else baseFee
  }

  /** setTransactionFee fails exactly on a zero base fee and then writes nothing; otherwise it makes the fee consistent and writes nothing else. */
  lemma SetTransactionFeeEffect(s: TxState)
    ensures var (t, err) := SetTransactionFeeStep(s);
      && (err.Some? <==> s.BaseFee == 0)
      && (err.Some? ==> t == s)
      && (err.None? ==> FeeConsistent(t) && t == s.(xdrTransaction := s.xdrTransaction.(Fee := t.xdrTransaction.Fee)))
  {
  }

  /**
   * TransactionFee returns 0 and writes nothing when the base fee is 0;
   * otherwise it returns the fee it has just written. It also returns 0
   * for a non-zero base fee when there is no XDR operation.
   */
  lemma TransactionFeeResult(s: TxState)
    ensures var (t, fee) := TransactionFeeStep(s);
      && (s.BaseFee == 0 ==> fee == 0 && t == s)
      && (s.BaseFee != 0 ==> FeeConsistent(t) && fee == t.xdrTransaction.Fee == FeeFor(s.BaseFee, |s.xdrTransaction.Operations|))
      && (s.BaseFee != 0 && s.xdrTransaction.Operations == [] ==> fee == 0)
  {
  }

  /**
   * The uint32 truncation can bring a non-zero fee to 0 even with a non-zero
   * base fee and operations: a base fee of 2^31 over two operations.
   */
  lemma TransactionFeeWrapsToZero(s: TxState)
    requires s.BaseFee == 0x8000_0000 && |s.xdrTransaction.Operations| == 2
    ensures TransactionFeeStep(s).1 == 0
  {
  }

  /** The panic in SetDefaultFee is unreachable: the fee it sets is never refused. */
  lemma SetDefaultFeeNeverPanics(s: TxState)
    ensures SetTransactionFeeStep(if s.BaseFee == 0 then s.(BaseFee := DefaultBaseFee) else s).1 == None
  {
  }

  /**
   * SetDefaultFee sets the base fee to 100 only when it was 0, makes the fee
   * consistent, changes nothing else, and doing it twice is doing it once.
   */
  lemma SetDefaultFeeEffect(s: TxState)
    ensures var t := SetDefaultFeeStep(s);
      && t.BaseFee == EffectiveBaseFee(s.BaseFee)
      && (s.BaseFee != 0 ==> t.BaseFee == s.BaseFee)
      && FeeConsistent(t)
      && t == s.(BaseFee := t.BaseFee, xdrTransaction := s.xdrTransaction.(Fee := t.xdrTransaction.Fee))
      && SetDefaultFeeStep(t) == t
  {
  }

  /** An empty source-account ID makes Build index out of range before it writes anything. */
  lemma BuildEmptySourcePanics(s: TxState, f: Foreign)
    requires s.Source.ID == ""
    ensures BuildStep(s, f) == (s, Panic(IndexOutOfRange))
  {
  }

  /** A source-account ID that does not start with 'G' is refused before anything is written. */
  lemma BuildRejectsNonPublicKey(s: TxState, f: Foreign)
    requires |s.Source.ID| > 0 && s.Source.ID[0] != 'G'
    ensures BuildStep(s, f) == (s, Err(New("invalid public key for transaction source account")))
  {
  }

  /**
   * After the 'G' check, a key that does not parse is returned as it is,
   * before anything is written; a sequence number that cannot be taken is
   * returned wrapped, after only the XDR source account was written.
   */
  lemma BuildEarlyErrors(s: TxState, f: Foreign)
    requires |s.Source.ID| > 0 && s.Source.ID[0] == 'G'
    ensures f.ParseKeypair(s.Source.ID).Some? ==>
      BuildStep(s, f) == (s, Err(f.ParseKeypair(s.Source.ID).value))
    ensures f.ParseKeypair(s.Source.ID).None? && s.Source.Next.1.Some? ==>
      BuildStep(s, f) == (s.(xdrTransaction := s.xdrTransaction.(SourceAccount := s.Source.ID)),
                          Err(Wrap(s.Source.Next.1.value, "failed to parse sequence number")))
  {
  }

  /** The checks Build makes before it touches the operations. */
  ghost predicate SourceAccepted(s: TxState, f: Foreign)
  {
    && |s.Source.ID| > 0
    && s.Source.ID[0] == 'G'
    && f.ParseKeypair(s.Source.ID).None?
    && s.Source.Next.1.None?
  }

  /**
   * Build succeeds exactly when every check and conversion does. It then
   * appends one XDR operation per operation, in order, after those already
   * there; sets source, sequence number and time bounds; sets the memo only
   * when there is one; makes the fee the effective base fee times the XDR
   * operation count; creates the envelope, from the finished XDR
   * transaction, only when there was none; and changes no user field
   * except a zero base fee.
   */
  lemma BuildSuccess(s: TxState, f: Foreign)
    ensures BuildStep(s, f).1 == Ok <==>
      && SourceAccepted(s, f)
      && MapUntilFailure(s.Operations, OperationBuilder(f)).Failure.None?
      && f.ValidateTimebounds(s.Timebounds).None?
      && (s.Memo.Some? ==> f.MemoToXDR(s.Memo.value).Success?)
    ensures var (t, o) := BuildStep(s, f);
      var before := s.xdrTransaction.Operations;
      var after := t.xdrTransaction.Operations;
      o == Ok ==>
        && |after| == |before| + |s.Operations|
        && after[..|before|] == before
        && (forall i :: 0 <= i < |s.Operations| ==> OperationXDR(s.Operations[i], f) == Success(after[|before| + i]))
        && t.xdrTransaction.SourceAccount == s.Source.ID
        && t.xdrTransaction.SeqNum == s.Source.Next.0
        && t.xdrTransaction.TimeBounds
           == Some(Xdr.TimeBounds(Xdr.ToUint64(s.Timebounds.MinTime), Xdr.ToUint64(s.Timebounds.MaxTime)))
        && (s.Memo.None? ==> t.xdrTransaction.Memo == s.xdrTransaction.Memo)
        && (s.Memo.Some? ==> t.xdrTransaction.Memo == f.MemoToXDR(s.Memo.value).value)
        && t.BaseFee == EffectiveBaseFee(s.BaseFee)
        && FeeConsistent(t)
        && (s.xdrEnvelope.None? ==> t.xdrEnvelope == Some(Xdr.TransactionEnvelope(t.xdrTransaction, [])))
        && (s.xdrEnvelope.Some? ==> t.xdrEnvelope == s.xdrEnvelope)
        && t == s.(BaseFee := t.BaseFee, xdrTransaction := t.xdrTransaction, xdrEnvelope := t.xdrEnvelope)
  {
  }

  /**
   * When the k-th operation is the first whose BuildXDR fails, Build returns
   * its error wrapped with the operation's type, keeps the XDR forms of
   * the k operations before it appended in order, keeps the source account
   * and sequence number it set, and writes no time bounds, memo, fee or
   * envelope; the user's fields are untouched.
   */
  lemma {:induction false} BuildStopsAtFirstFailingOperation(s: TxState, f: Foreign, k: nat)
    requires SourceAccepted(s, f)
    requires k < |s.Operations|
    requires forall i :: 0 <= i < k ==> OperationXDR(s.Operations[i], f).Success?
    requires OperationXDR(s.Operations[k], f).Failure?
    ensures var (t, o) := BuildStep(s, f);
      && o == Err(Wrap(OperationXDR(s.Operations[k], f).error, "failed to build operation " + TypeName(s.Operations[k])))
      && |t.xdrTransaction.Operations| == |s.xdrTransaction.Operations| + k
      && t.xdrTransaction.Operations[..|s.xdrTransaction.Operations|] == s.xdrTransaction.Operations
      && (forall i :: 0 <= i < k ==>
            OperationXDR(s.Operations[i], f) == Success(t.xdrTransaction.Operations[|s.xdrTransaction.Operations| + i]))
      && t.xdrTransaction.SourceAccount == s.Source.ID
      && t.xdrTransaction.SeqNum == s.Source.Next.0
      && t.xdrTransaction.TimeBounds == s.xdrTransaction.TimeBounds
      && t.xdrTransaction.Memo == s.xdrTransaction.Memo
      && t.xdrTransaction.Fee == s.xdrTransaction.Fee
      && t == s.(xdrTransaction := t.xdrTransaction)
  {
    var g := OperationBuilder(f);
    var built := MapUntilFailure(s.Operations, g);
    assert g(s.Operations[k]).Failure?;
    assert forall i :: 0 <= i < k ==> g(s.Operations[i]).Success?;
    assert |built.Done| == k;
  }

  /**
   * A Build that fails after its loop, at the time-bounds check or at the
   * memo, returns that error (the memo's wrapped) and keeps the XDR
   * operations and sequence number it has already written, so a retry
   * appends the operations again; fee, envelope and user fields are
   * untouched.
   */
  lemma BuildLateFailureKeepsOperations(s: TxState, f: Foreign)
    requires SourceAccepted(s, f)
    requires MapUntilFailure(s.Operations, OperationBuilder(f)).Failure.None?
    ensures f.ValidateTimebounds(s.Timebounds).Some? ==>
      BuildStep(s, f).1 == Err(f.ValidateTimebounds(s.Timebounds).value)
    ensures f.ValidateTimebounds(s.Timebounds).None? && s.Memo.Some? && f.MemoToXDR(s.Memo.value).Failure? ==>
      BuildStep(s, f).1 == Err(Wrap(f.MemoToXDR(s.Memo.value).error, "couldn't build memo XDR"))
    ensures var (t, o) := BuildStep(s, f);
      o != Ok ==>
        && t.xdrTransaction.Operations
           == s.xdrTransaction.Operations + MapUntilFailure(s.Operations, OperationBuilder(f)).Done
        && t.xdrTransaction.SourceAccount == s.Source.ID
        && t.xdrTransaction.SeqNum == s.Source.Next.0
        && t.xdrTransaction.Fee == s.xdrTransaction.Fee
        && t == s.(xdrTransaction := t.xdrTransaction)
  {
  }

  /**
   * Calling Build twice appends the operations twice: the second call sees
   * the same sequence number (the source account does not advance), adds
   * the same XDR operations again and charges for all of them, while the
   * envelope keeps the transaction as the first call left it.
   */
  lemma BuildTwiceAppendsTwice(s: TxState, f: Foreign)
    requires BuildStep(s, f).1 == Ok
    ensures var (t, _) := BuildStep(s, f);
      var (u, o) := BuildStep(t, f);
      var ops := MapUntilFailure(s.Operations, OperationBuilder(f)).Done;
      && o == Ok
      && u.xdrTransaction.Operations == s.xdrTransaction.Operations + ops + ops
      && u.xdrTransaction.SeqNum == t.xdrTransaction.SeqNum
      && u.xdrTransaction.Fee == FeeFor(EffectiveBaseFee(s.BaseFee), |s.xdrTransaction.Operations| + 2 * |s.Operations|)
      && u.xdrEnvelope == t.xdrEnvelope
      && (s.xdrEnvelope.None? ==> u.xdrEnvelope.value.Tx.Operations == s.xdrTransaction.Operations + ops)
  {
    BuildSuccess(s, f);
    var t := BuildStep(s, f).0;
    BuildSuccess(t, f);
  }

  /**
   * With an envelope present and the hash computed, Sign appends one
   * signature per keypair in order until the first failure, and changes
   * nothing else; it succeeds exactly when every keypair signs.
   */
  lemma SignAppendsInOrder(s: TxState, kps: seq<Keypair>, f: Foreign)
    requires s.xdrEnvelope.Some?
    requires f.HashTransaction(s.xdrTransaction, s.Network).Success?
    ensures var (t, o) := SignStep(s, kps, f);
      var hash := f.HashTransaction(s.xdrTransaction, s.Network).value;
      var old_sigs := s.xdrEnvelope.value.Signatures;
      var sigs := t.xdrEnvelope.value.Signatures;
      && t.xdrEnvelope.Some?
      && t == s.(xdrEnvelope := t.xdrEnvelope)
      && t.xdrEnvelope.value.Tx == s.xdrEnvelope.value.Tx
      && |old_sigs| <= |sigs| <= |old_sigs| + |kps|
      && sigs[..|old_sigs|] == old_sigs
      && (forall i :: |old_sigs| <= i < |sigs| ==> f.SignDecorated(kps[i - |old_sigs|], hash) == Success(sigs[i]))
      && (o == Ok <==> |sigs| == |old_sigs| + |kps|)
      && (o != Ok ==>
            && f.SignDecorated(kps[|sigs| - |old_sigs|], hash).Failure?
            && o == Err(Wrap(f.SignDecorated(kps[|sigs| - |old_sigs|], hash).error, "failed to sign transaction")))
  {
  }

  /**
   * Sign's errors: a hashing failure is returned wrapped, with nothing
   * written; without an envelope, a first keypair that fails to sign is
   * returned wrapped before the nil envelope is reached, so no panic.
   */
  lemma SignErrors(s: TxState, kps: seq<Keypair>, f: Foreign)
    ensures f.HashTransaction(s.xdrTransaction, s.Network).Failure? ==>
      SignStep(s, kps, f) == (s, Err(Wrap(f.HashTransaction(s.xdrTransaction, s.Network).error, "failed to hash transaction")))
    ensures s.xdrEnvelope.None? && f.HashTransaction(s.xdrTransaction, s.Network).Success? && |kps| > 0 &&
            f.SignDecorated(kps[0], f.HashTransaction(s.xdrTransaction, s.Network).value).Failure? ==>
      SignStep(s, kps, f) ==
        (s, Err(Wrap(f.SignDecorated(kps[0], f.HashTransaction(s.xdrTransaction, s.Network).value).error, "failed to sign transaction")))
  {
    if s.xdrEnvelope.None? && f.HashTransaction(s.xdrTransaction, s.Network).Success? && |kps| > 0 {
      var g := Signer(f, f.HashTransaction(s.xdrTransaction, s.Network).value);
      if g(kps[0]).Failure? {
        var signed := MapUntilFailure(kps, g);
        assert |signed.Done| == 0;
      }
    }
  }

  /** Without an envelope, Sign panics as soon as one keypair has signed, before anything is written. */
  lemma SignWithoutEnvelopePanics(s: TxState, kps: seq<Keypair>, f: Foreign)
    requires s.xdrEnvelope.None?
    requires f.HashTransaction(s.xdrTransaction, s.Network).Success?
    requires |kps| > 0 && f.SignDecorated(kps[0], f.HashTransaction(s.xdrTransaction, s.Network).value).Success?
    ensures SignStep(s, kps, f) == (s, Panic(NilPointerDereference))
  {
    var g := Signer(f, f.HashTransaction(s.xdrTransaction, s.Network).value);
    var signed := MapUntilFailure(kps, g);
    assert g(kps[0]).Success?;
    assert |signed.Done| > 0;
  }

  /**
   * SignHashX always leaves an envelope, made from the XDR transaction if
   * there was none. A preimage over 64 bytes is refused with the signatures
   * unchanged; any other is appended as exactly one signature that carries
   * the preimage and the last four bytes of its sha256 as hint.
   */
  lemma SignHashXEffect(s: TxState, preimage: seq<bv8>, f: Foreign)
    ensures var (t, o) := SignHashXStep(s, preimage, f);
      var old_sigs := if s.xdrEnvelope.Some? then s.xdrEnvelope.value.Signatures else [];
      && t.xdrEnvelope.Some?
      && t == s.(xdrEnvelope := t.xdrEnvelope)
      && t.xdrEnvelope.value.Tx == (if s.xdrEnvelope.Some? then s.xdrEnvelope.value.Tx else s.xdrTransaction)
      && (o == Ok <==> |preimage| <= 64)
      && (|preimage| > 64 ==> o == Err(New("preimage cannnot be more than 64 bytes")))
      && (|preimage| > 64 ==> t.xdrEnvelope.value.Signatures == old_sigs)
      && (|preimage| <= 64 ==>
            var sigs := t.xdrEnvelope.value.Signatures;
            && sigs[..|old_sigs|] == old_sigs
            && |sigs| == |old_sigs| + 1
            && sigs[|old_sigs|].Signature == preimage
            && |sigs[|old_sigs|].Hint| == 4
            && sigs[|old_sigs|].Hint == f.Sha256(preimage)[28..32])
  {
  }

  /**
   * After a successful Build the envelope exists, so BuildSignEncode never
   * reaches Sign's nil dereference. When it succeeds, the built transaction
   * hashed, the envelope keeps the built transaction and its signatures and
   * gains, in order, each keypair's signature of that hash; nothing else
   * changes, and the text is the base64 of the marshalled envelope.
   */
  lemma BuildSignEncodeResult(s: TxState, kps: seq<Keypair>, f: Foreign)
    requires BuildStep(s, f).1 == Ok
    ensures var (t, _) := BuildStep(s, f);
      var (u, text, o) := BuildSignEncodeStep(s, kps, f);
      && o != Panic(NilPointerDereference)
      && (o == Ok ==>
            && f.HashTransaction(t.xdrTransaction, t.Network).Success?
            && u.xdrEnvelope.Some?
            && u == t.(xdrEnvelope := u.xdrEnvelope)
            && u.xdrEnvelope.value.Tx == t.xdrEnvelope.value.Tx
            && |u.xdrEnvelope.value.Signatures| == |t.xdrEnvelope.value.Signatures| + |kps|
            && u.xdrEnvelope.value.Signatures[..|t.xdrEnvelope.value.Signatures|] == t.xdrEnvelope.value.Signatures
            && (forall i :: 0 <= i < |kps| ==>
                  f.SignDecorated(kps[i], f.HashTransaction(t.xdrTransaction, t.Network).value)
                  == Success(u.xdrEnvelope.value.Signatures[|t.xdrEnvelope.value.Signatures| + i]))
            && f.MarshalEnvelope(u.xdrEnvelope).Success?
            && text == f.Base64(f.MarshalEnvelope(u.xdrEnvelope).value))
  {
    BuildLeavesEnvelope(s, f);
    var t := BuildStep(s, f).0;
    if f.HashTransaction(t.xdrTransaction, t.Network).Success? {
      SignAppendsInOrder(t, kps, f);
    }
  }

  /** A successful Build always leaves an envelope behind. */
  lemma BuildLeavesEnvelope(s: TxState, f: Foreign)
    requires BuildStep(s, f).1 == Ok
    ensures BuildStep(s, f).0.xdrEnvelope.Some?
  {
    BuildSuccess(s, f);
  }

  // ------------------------------------------------------- the transaction

  class Transaction {
    // Go declares this field as the Account interface; the model fixes it to
    // the friendbot's implementation, hence this module's import of Friendbot.
    var SourceAccount: Friendbot.Account
    var Operations: seq<Operation>
    var BaseFee: Xdr.Uint32
    var Memo: Option<Memo>
    var Timebounds: Timebounds
    var Network: string
    var xdrTransaction: Xdr.Transaction
    var xdrEnvelope: Option<Xdr.TransactionEnvelope>

    /** A Transaction literal: the user's fields set, the XDR transaction zero and no envelope. */
    constructor (sourceAccount: Friendbot.Account, operations: seq<Operation>, baseFee: Xdr.Uint32,
                 memo: Option<Memo>, timebounds: Timebounds, network: string)
      ensures SourceAccount == sourceAccount && Operations == operations && BaseFee == baseFee
      ensures Memo == memo && Timebounds == timebounds && Network == network
      ensures xdrTransaction == Xdr.ZeroTransaction && xdrEnvelope == None
    {
      SourceAccount := sourceAccount;
      Operations := operations;
      BaseFee := baseFee;
      Memo := memo;
      Timebounds := timebounds;
      Network := network;
      xdrTransaction := Xdr.ZeroTransaction;
      xdrEnvelope := None;
    }

    /** The transaction's state, with the source account seen through its two methods. */
    ghost function State(): TxState
      reads this, SourceAccount
    {
      TxState(
        AccountView(SourceAccount.GetAccountID(), SourceAccount.IncrementSequenceNumber()),
        Operations, BaseFee, Memo, Timebounds, Network, xdrTransaction, xdrEnvelope)
    }

    /** Hash: the network hash of the XDR transaction. */
    function Hash(f: Foreign): Result<Digest, Error>
      reads this
    {
      f.HashTransaction(xdrTransaction, Network)
    }

    /** Base64: the base64 text of the marshalled envelope. */
    function Base64(f: Foreign): Result<string, Error>
      reads this
    {
      EnvelopeBase64(xdrEnvelope, f)
    }

    method SetTransactionFee() returns (err: Option<Error>)
      modifies this`xdrTransaction
      ensures (State(), err) == SetTransactionFeeStep(old(State()))
    {
      if BaseFee == 0 {
        return Some(New("base fee can not be zero"));
      }
      xdrTransaction := xdrTransaction.(Fee := Xdr.ToUint32(BaseFee * |xdrTransaction.Operations|));
      return None;
    }

    method TransactionFee() returns (fee: int)
      modifies this`xdrTransaction
      ensures (State(), fee) == TransactionFeeStep(old(State()))
    {
      var err := SetTransactionFee();
      if err.Some? {
        return 0;
      }
      return xdrTransaction.Fee;
    }

    method SetDefaultFee()
      modifies this`BaseFee, this`xdrTransaction
      ensures State() == SetDefaultFeeStep(old(State()))
    {
      var defaultBaseFee: Xdr.Uint32 := 100;
      if BaseFee == 0 {
        BaseFee := defaultBaseFee;
      }
      var err := SetTransactionFee();
      if err.Some? {
        // Go panics here; the base fee is non-zero, so it cannot
        assert false;
      }
    }

    method Build(f: Foreign) returns (outcome: Outcome)
      modifies this`BaseFee, this`xdrTransaction, this`xdrEnvelope
      ensures (State(), outcome) == BuildStep(old(State()), f)
    {
      var accountID := SourceAccount.GetAccountID();
      if |accountID| == 0 {
        return Panic(IndexOutOfRange);
      }
      if accountID[0] != 'G' {
        return Err(New("invalid public key for transaction source account"));
      }
      match f.ParseKeypair(accountID) {
        case Some(e) => return Err(e);
        case None =>
      }
      xdrTransaction := xdrTransaction.(SourceAccount := accountID);

      var (seqnum, err) := SourceAccount.IncrementSequenceNumber();
      match err {
        case Some(e) => return Err(Wrap(e, "failed to parse sequence number"));
        case None =>
      }
      xdrTransaction := xdrTransaction.(SeqNum := seqnum);

      var failure := AppendOperations(f);
      match failure {
        case Some(e) => return Err(e);
        case None =>
      }
      outcome := FinishBuild(f);
    }

    /**
     * The loop of Build that converts the operations in order, stopping at
     * the first failure, whose error it returns wrapped with the type of the
     * operation that failed.
     */
    method AppendOperations(f: Foreign) returns (failure: Option<Error>)
      modifies this`xdrTransaction
      ensures var built := MapUntilFailure(Operations, OperationBuilder(f));
        failure == (match built.Failure
                    case None => None
                    case Some(e) => Some(Wrap(e, "failed to build operation " + TypeName(Operations[|built.Done|]))))
      ensures xdrTransaction == old(xdrTransaction).(Operations :=
        old(xdrTransaction).Operations + MapUntilFailure(Operations, OperationBuilder(f)).Done)
    {
      ghost var g := OperationBuilder(f);
      ghost var start := xdrTransaction;
      for i := 0 to |Operations|
        invariant MapUntilFailure(Operations[..i], g).Failure.None?
        invariant xdrTransaction == start.(Operations := start.Operations + MapUntilFailure(Operations[..i], g).Done)
      {
        var op := Operations[i];
        assert Operations[..i + 1][..i] == Operations[..i];
        match OperationXDR(op, f) {
          case Failure(e) =>
            assert g(op) == Failure(e);
            assert MapUntilFailure(Operations[..i + 1], g) == Partial(MapUntilFailure(Operations[..i], g).Done, Some(e));
            FailureIsFinal(Operations, g, i + 1);
            return Some(Wrap(e, "failed to build operation " + TypeName(op)));
          case Success(xop) =>
            xdrTransaction := xdrTransaction.(Operations := xdrTransaction.Operations + [xop]);
        }
      }
      assert Operations[..|Operations|] == Operations;
      return None;
    }

    /** The part of Build after the operations: time bounds, memo, default fee and envelope. */
    method FinishBuild(f: Foreign) returns (outcome: Outcome)
      modifies this`BaseFee, this`xdrTransaction, this`xdrEnvelope
      ensures (State(), outcome) == FinishBuildStep(old(State()), f)
    {
      match f.ValidateTimebounds(Timebounds) {
        case Some(e) => return Err(e);
        case None =>
      }
      xdrTransaction := xdrTransaction.(TimeBounds :=
        Some(Xdr.TimeBounds(Xdr.ToUint64(Timebounds.MinTime), Xdr.ToUint64(Timebounds.MaxTime))));

      match Memo {
        case Some(m) =>
          match f.MemoToXDR(m) {
            case Failure(e) => return Err(Wrap(e, "couldn't build memo XDR"));
            case Success(xm) => xdrTransaction := xdrTransaction.(Memo := xm);
          }
        case None =>
      }

      SetDefaultFee();

      if xdrEnvelope.None? {
        xdrEnvelope := Some(Xdr.TransactionEnvelope(xdrTransaction, []));
      }
      return Ok;
    }

    method Sign(kps: seq<Keypair>, f: Foreign) returns (outcome: Outcome)
      modifies this`xdrEnvelope
      ensures (State(), outcome) == SignStep(old(State()), kps, f)
    {
      var hash: Digest;
      match Hash(f) {
        case Failure(e) => return Err(Wrap(e, "failed to hash transaction"));
        case Success(h) => hash := h;
      }

      outcome := AppendSignatures(kps, f, hash);
    }

    /** The loop of Sign: one signature per keypair, in order, until the first failure. */
    method AppendSignatures(kps: seq<Keypair>, f: Foreign, hash: Digest) returns (outcome: Outcome)
      modifies this`xdrEnvelope
      ensures (xdrEnvelope, outcome) == SignEnvelope(old(xdrEnvelope), MapUntilFailure(kps, Signer(f, hash)))
    {
      ghost var g := Signer(f, hash);
      ghost var env0 := xdrEnvelope;
      assert kps[..0] == [];
      assert MapUntilFailure(kps[..0], g).Done == [];
      assert env0.Some? ==> env0.value.Signatures + [] == env0.value.Signatures;
      for i := 0 to |kps|
        invariant MapUntilFailure(kps[..i], g).Failure.None?
        invariant env0.None? ==> xdrEnvelope == None && i == 0
        invariant env0.Some? ==>
          xdrEnvelope == Some(env0.value.(Signatures := env0.value.Signatures + MapUntilFailure(kps[..i], g).Done))
      {
        assert kps[..i + 1][..i] == kps[..i];
        match f.SignDecorated(kps[i], hash) {
          case Failure(e) =>
            FailureIsFinal(kps, g, i + 1);
            return Err(Wrap(e, "failed to sign transaction"));
          case Success(sig) =>
            assert MapUntilFailure(kps[..i + 1], g) == Partial(MapUntilFailure(kps[..i], g).Done + [sig], None);
            match xdrEnvelope {
              case None =>
                assert g(kps[0]) == Success(sig);
                return Panic(NilPointerDereference);
              case Some(env) =>
                ghost var done := MapUntilFailure(kps[..i], g).Done;
                assert env == env0.value.(Signatures := env0.value.Signatures + done);
                assert env.Signatures + [sig] == env0.value.Signatures + (done + [sig]);
                xdrEnvelope := Some(env.(Signatures := env.Signatures + [sig]));
            }
        }
      }
      assert kps[..|kps|] == kps;
      return Ok;
    }

    method SignHashX(preimage: seq<bv8>, f: Foreign) returns (outcome: Outcome)
      modifies this`xdrEnvelope
      ensures (State(), outcome) == SignHashXStep(old(State()), preimage, f)
    {
      if xdrEnvelope.None? {
        xdrEnvelope := Some(Xdr.TransactionEnvelope(xdrTransaction, []));
      }
      if |preimage| > Xdr.SignatureMaxSize {
        return Err(New("preimage cannnot be more than 64 bytes"));
      }
      var preimageHash := f.Sha256(preimage);
      var sig := Xdr.DecoratedSignature(preimageHash[28..], preimage);
      xdrEnvelope := Some(xdrEnvelope.value.(Signatures := xdrEnvelope.value.Signatures + [sig]));
      return Ok;
    }

    method BuildSignEncode(kps: seq<Keypair>, f: Foreign) returns (encoded: string, outcome: Outcome)
      modifies this`BaseFee, this`xdrTransaction, this`xdrEnvelope
      ensures (State(), encoded, outcome) == BuildSignEncodeStep(old(State()), kps, f)
    {
      var o := Build(f);
      if !o.Ok? {
        return "", WrapOutcome(o, "couldn't build transaction");
      }
      o := Sign(kps, f);
      if !o.Ok? {
        return "", WrapOutcome(o, "couldn't sign transaction");
      }
      match Base64(f) {
        case Failure(e) => return "", Err(Wrap(e, "couldn't encode transaction"));
        case Success(text) => return text, Ok;
      }
    }
  }
}
