# DiamNet Go SDK: transaction builder, friendbot account and ingestion records

This project models, in Dafny, four pieces of the DiamNet Go repository:

- **The transaction builder** (`txnbuild/transaction.go`). A `Transaction` holds what its user sets: a
  source account, operations, a base fee, a memo, time bounds and a network passphrase.
  `Build` fills in the XDR transaction in place:
  - It checks the source account ID and records it.
  - It takes the next sequence number.
  - It converts the operations one by one and stops at the first that fails.
  - It sets the time bounds and the memo.
  - It applies the default fee.
  - It creates the envelope once.

  `Sign` and `SignHashX` append signatures to the envelope. `BuildSignEncode` chains
  Build, Sign and Base64. `setTransactionFee`, `TransactionFee` and `SetDefaultFee`
  recompute the fee as base fee × operation count, truncated to uint32.
- **The bump-sequence operation** (`txnbuild/bump_sequence.go`). `BuildXDR` turns it into an XDR
  operation that carries the bump target and the operation's own source account.
- **The friendbot's account** (`services/friendbot/internal/account.go`). It implements the
  builder's `Account` interface:
  - `IncrementSequenceNumber` works on a value-receiver copy, so the account itself never advances.
  - `RefreshSequenceNumber` reloads the sequence number from Aurora's account record. The record
    holds the number as decimal text, which the method parses with `strconv.ParseInt`.
- **The ingestion subsystem's records and constructors** (`services/aurora/internal/ingest/main.go`):
  - the records `System`, `Session`, `Cursor`, `Config`, `Ingestion`, `AssetStats` and
    `BatchInsertBuilder`;
  - the ten table names;
  - `CurrentVersion` = 16;
  - `New`, `NewCursor` and `NewSession`.

How the Go code is modelled:

- **Builder steps.** Each step of the builder is first a pure function from one `TxState` to the
  next (`BuildStep`, `SignStep`, …). Lemmas state what those functions guarantee. The class
  `Txnbuild.Transaction` then performs the same steps in place, with a `for` loop over the
  operations and the keypairs. Each of its methods is proved to agree with its step function.
- **Panics.** Go panics are an outcome value. These are indexing the empty source-account ID and
  appending to a nil envelope in `Sign`. Panics on nil values that the model's types cannot hold
  are listed under "Left out".
- **Foreign code.** The functions the builder calls into but whose code is not part of this model
  are fields of a `Foreign` record passed to every operation:
  - key parsing, time-bound validation and memo conversion;
  - the XDR union constructor;
  - network hashing, signing and sha256;
  - XDR marshalling and base64.
- **Identities.** Database handles and metric timers are identities. A counter `next`
  provides fresh identities, for `Clone` and `metrics.NewTimer`.
- **Integer widths.** Go's fixed-width integer conversions are written out:
  - `uint32` truncation of the fee;
  - the `int64 → uint64` time-point conversion;
  - `int64` wrap-around of `Sequence++`.

## Model

| member | source | states |
|---|---|---|
| Xdr.ToUint32 | txnbuild/transaction.go:296 | the uint32 conversion leaves every value that fits unchanged |
| Xdr.ToUint64 | txnbuild/transaction.go:131-132 | the int64 → uint64 time-point conversion keeps non-negative values and wraps negative ones by 2^64 |
| Xdr.WrapInt64 | services/friendbot/internal/account.go:25 | int64 arithmetic is exact whenever the result fits |
| StrConv.FormatNat | services/friendbot/internal/account.go:36 | the decimal text of a number is non-empty, all digits, with no leading zero |
| StrConv.DigitsValueOfFormatNat | services/friendbot/internal/account.go:36 | reading back the decimal digits of n gives n |
| StrConv.ParseInt | services/friendbot/internal/account.go:36 | `strconv.ParseInt(s, 10, 64)` refuses the empty text, a lone sign and any non-digit other than one leading sign; digit text, with or without '+', is accepted exactly when its value is at most the int64 maximum, and with '-' exactly when it is at least the int64 minimum; an accepted text yields its signed decimal value |
| StrConv.ParseFormatRoundTrip | services/friendbot/internal/account.go:36 | `ParseInt` in base 10 and 64 bits recovers every int64 from its decimal text, sign included, down to the int64 minimum |
| OpBumpSequence.BuildXDR | txnbuild/bump_sequence.go:16-26 | succeeds exactly when the body constructor does; on failure, the zero operation and the error wrapped "failed to build XDR OperationBody"; on success, the op's body is the one the constructor returned and the op carries the operation's source account; for a union constructor, the body has the bump type and BumpTo unchanged |
| Friendbot.Account.constructor | services/friendbot/internal/account.go:12-15 | an account holds the given ID and sequence number |
| Friendbot.Account.GetAccountID | services/friendbot/internal/account.go:18-20 | returns the account ID; reads only, changes nothing |
| Friendbot.Account.IncrementSequenceNumber | services/friendbot/internal/account.go:24-27 | returns Sequence + 1 (wrapping at the int64 maximum) with a nil error; a function of the account that cannot change it, so repeated calls return the same number |
| Friendbot.Account.RefreshSequenceNumber | services/friendbot/internal/account.go:30-42 | on a fetch error or a parse error, returns that error wrapped with its message and leaves Sequence unchanged; otherwise sets Sequence to the parsed int64 and returns nil |
| Friendbot.RefreshThenIncrement | services/friendbot/internal/account.go:24-42 | a refresh from a record that shows n, followed by an increment, succeeds, stores n and yields the number after n, with the account ID unchanged |
| Txnbuild.MapUntilFailure | txnbuild/transaction.go:118-124 | the loop keeps converted elements in order, all successes, up to the first failure it reports; no failure exactly when every element converted |
| Txnbuild.FailureIsFinal | txnbuild/transaction.go:118-124 | once a prefix has failed, the rest of the list does not change the loop's result |
| Txnbuild.EnvelopeBase64 | txnbuild/transaction.go:56-74 | Base64 succeeds exactly when marshalling the envelope does, giving the base64 of the bytes; a marshalling error is wrapped by MarshalBinary and then by Base64 |
| Txnbuild.SetTransactionFeeEffect | txnbuild/transaction.go:291-298 | fails exactly on a zero base fee and then writes nothing; otherwise the fee becomes base fee × XDR operation count mod 2^32 and nothing else changes |
| Txnbuild.TransactionFeeResult | txnbuild/transaction.go:301-308 | returns 0 without writing when the base fee is 0; otherwise returns the fee it has just written, which is 0 when there are no XDR operations |
| Txnbuild.TransactionFeeWrapsToZero | txnbuild/transaction.go:296 | the uint32 truncation makes the fee 0 for a base fee of 2^31 over two operations |
| Txnbuild.SetDefaultFeeNeverPanics | txnbuild/transaction.go:80-91 | the panic branch of SetDefaultFee is unreachable |
| Txnbuild.SetDefaultFeeEffect | txnbuild/transaction.go:80-91 | a zero base fee becomes 100 and any other is kept; the fee becomes consistent; nothing else changes; applying it twice is applying it once |
| Txnbuild.BuildEmptySourcePanics | txnbuild/transaction.go:97-99 | an empty source-account ID panics with an index out of range before anything is written |
| Txnbuild.BuildRejectsNonPublicKey | txnbuild/transaction.go:97-101 | an ID not starting with 'G' is refused with "invalid public key for transaction source account" and nothing is written |
| Txnbuild.BuildEarlyErrors | txnbuild/transaction.go:102-115 | a key that fails `keypair.Parse` is returned unwrapped with nothing written; a failing `IncrementSequenceNumber` is returned wrapped "failed to parse sequence number", with only the XDR source account written |
| Txnbuild.BuildSuccess | txnbuild/transaction.go:95-155 | Build succeeds iff the ID, key, sequence number, every operation, the time bounds and the memo are accepted. It then appends one XDR operation per operation in order, sets source, sequence number, time bounds and memo, makes the fee consistent with the effective base fee, creates the envelope only if absent, and changes no user field except a zero base fee |
| Txnbuild.BuildLeavesEnvelope | txnbuild/transaction.go:148-154 | after a successful Build an envelope exists |
| Txnbuild.BuildStopsAtFirstFailingOperation | txnbuild/transaction.go:118-124 | the first failing operation's error is returned, wrapped with its type name; the XDR forms of the operations before it stay appended, in order, after the old ones; source account and sequence number are written; time bounds, memo, fee, envelope and every user field are untouched |
| Txnbuild.BuildLateFailureKeepsOperations | txnbuild/transaction.go:126-141 | a failing time-bounds check returns its error unwrapped, and a failing memo conversion returns "couldn't build memo XDR"; either way the XDR operations and sequence number already written stay, so a retry appends the operations again; fee, envelope and user fields are untouched |
| Txnbuild.BuildTwiceAppendsTwice | txnbuild/transaction.go:95-155 | a second Build reuses the same sequence number, appends the operations again and charges for both copies, while an existing envelope keeps the first build's transaction |
| Txnbuild.SignAppendsInOrder | txnbuild/transaction.go:159-180 | with an envelope, Sign appends one signature per keypair in order, stops at the first signing failure, keeps earlier signatures and the envelope's transaction, and succeeds iff all keypairs signed; otherwise it returns the failing keypair's error wrapped "failed to sign transaction" |
| Txnbuild.SignErrors | txnbuild/transaction.go:164-174 | a hashing failure is returned wrapped "failed to hash transaction" with nothing written; without an envelope, a first keypair that fails to sign gives that error wrapped "failed to sign transaction", not a panic |
| Txnbuild.SignWithoutEnvelopePanics | txnbuild/transaction.go:170-177 | without an envelope, Sign panics on a nil dereference as soon as one keypair has signed |
| Txnbuild.SignHashXEffect | txnbuild/transaction.go:312-335 | always leaves an envelope; refuses a preimage over 64 bytes with "preimage cannnot be more than 64 bytes" and adds no signature; otherwise appends exactly one signature holding the preimage, with the last 4 bytes of its sha256 as hint |
| Txnbuild.BuildSignEncodeResult | txnbuild/transaction.go:184-201 | after a successful Build the chain never reaches Sign's nil dereference; on success the built transaction hashed, the envelope keeps the built transaction and its earlier signatures, then holds each keypair's signature of that hash in order; nothing else changes; the text is the base64 of the marshalled envelope |
| Txnbuild.Transaction.constructor | txnbuild/transaction.go:39-48 | a Transaction literal: user fields set, zero XDR transaction, nil envelope |
| Txnbuild.Transaction.SetTransactionFee | txnbuild/transaction.go:291-298 | the new state and error are those of the setTransactionFee step, writing only the XDR transaction |
| Txnbuild.Transaction.TransactionFee | txnbuild/transaction.go:301-308 | result and new state are those of the TransactionFee step |
| Txnbuild.Transaction.SetDefaultFee | txnbuild/transaction.go:80-91 | the new state is that of the SetDefaultFee step; the panic is never reached |
| Txnbuild.Transaction.Build | txnbuild/transaction.go:95-155 | the in-place Build ends in the state and outcome of the Build step |
| Txnbuild.Transaction.AppendOperations | txnbuild/transaction.go:118-124 | the loop appends exactly the operations converted before the first failure and returns that failure wrapped with the failing operation's type name |
| Txnbuild.Transaction.FinishBuild | txnbuild/transaction.go:126-154 | time bounds, memo, default fee and envelope are written as the finishing part of the Build step says |
| Txnbuild.Transaction.Sign | txnbuild/transaction.go:159-180 | the in-place Sign ends in the state and outcome of the Sign step, writing only the envelope |
| Txnbuild.Transaction.AppendSignatures | txnbuild/transaction.go:170-177 | the signing loop appends exactly the signatures made before the first failure and returns that failure wrapped, or panics on a nil envelope once there is a signature to append |
| Txnbuild.Transaction.SignHashX | txnbuild/transaction.go:312-335 | ends in the state and outcome of the SignHashX step |
| Txnbuild.Transaction.BuildSignEncode | txnbuild/transaction.go:184-201 | ends in the state, text and outcome of the BuildSignEncode step |
| Ingest.New | services/aurora/internal/ingest/main.go:215-228 | stores config, network, core URL and both handles; sets three distinct new timers; SkipCursorUpdate false, retention 0, no current session, and IngestFailedTransactions false whatever the config says |
| Ingest.NewCursor | services/aurora/internal/ingest/main.go:231-239 | the inclusive range first..last, named after the configured cursor, sharing the System's core handle and metrics; no error, position 0, no data, no asset stats |
| Ingest.NewSession | services/aurora/internal/ingest/main.go:242-260 | the ingestion and the asset stats share one new clone of the history handle; the core handle is cloned separately over the same connection; config, network, core URL and skip flag are copied and metrics shared; results start empty |
| Ingest.TableNamesDistinct | services/aurora/internal/ingest/main.go:37-48 | the ten table names are pairwise distinct |
| Ingest.NewKeepsHandlesBelow | services/aurora/internal/ingest/main.go:215-228 | every identity of a new System lies below the advanced counter |
| Ingest.NewSessionClonesAreFresh | services/aurora/internal/ingest/main.go:243-258 | a session's handles are never the System's own, and the next session's handles differ again |
| Ingest.CursorSharesSessionClones | services/aurora/internal/ingest/main.go:231-260 | a cursor uses the System's core handle itself, while a session uses a clone; both share the System's metrics; the cursor's name is the session's configured cursor name |
| Ingest.FailedTransactionsFlagOnlyInConfig | services/aurora/internal/ingest/main.go:215-228 | after New, the System's own failed-transactions flag is false, but a session's copied Config keeps the requested value |

## Left out

- `BuildChallengeTx` and `generateRandomNonce` (transaction.go:206-275) are left out. They read the clock and `crypto/rand`. They also build `SimpleAccount` and `ManageData` values, whose code is not part of this model.
- `HashHex` and `TxEnvelope` (transaction.go:277-289) are left out. One hex-encodes a foreign hash. The other returns the envelope pointer itself, and aliasing through that pointer is not modelled.
- `Txnbuild.Transaction.Hash` has no contract of its own. It is a single call of the foreign network hash.
- The foreign functions listed above are opaque parameters: keypair parsing, `Timebounds.Validate`, `Memo.ToXDR`, `xdr.NewOperationBody`, hashing, signing, sha256, XDR marshalling and base64. `SetOpSourceAccount` is not part of this model either; it is taken to set the source exactly when the account is non-nil.
- Operations other than BumpSequence are given by their Go type name and the outcome of their `BuildXDR`.
- `Transaction.SourceAccount` is always the friendbot `Account`. The `Account` interface's other implementations are not part of this model.
- `int(tx.BaseFee) * len(tx.xdrTransaction.Operations)` is computed without int64 wrap-around. The uint32 truncation that follows gives the same result either way, because 2^32 divides 2^64.
- StrConv.ParseInt: it does not tell a syntax error from a range error, and its error text is not Go's.
- `RefreshSequenceNumber` receives the outcome of the Aurora account request as an input. The HTTP call itself is I/O.
- Ingestion: the following are not modelled:
  - the `sync.Mutex` and `sync.Once` fields;
  - logging;
  - the code behind `db.Session`;
  - cursor stepping, batch flushing, clearing and the run lock, whose code is not in the modelled file.
- Panics on nil values are not modelled, because the model's types cannot be nil. These are a nil `SourceAccount` at `GetAccountID` (transaction.go:97), a nil entry of `Operations` at `op.BuildXDR()` (transaction.go:119), and a nil `*BumpSequence` at `bs.BumpTo` (bump_sequence.go:18). The model assumes none of them is nil.
- Ingest.NewSession: the database handles are never nil in this model. A nil handle, which `Clone` would dereference, is not modelled.
- Ingest: the pointers `Session.Metrics` and `Cursor.Metrics` point at the System's `Metrics` field. They are modelled as the value they point to, which `New` writes once and nothing in this code writes again.
- The contents of `core.LedgerHeader`, `core.Transaction`, `core.TransactionFee` and `xdr.Asset`, and the values of batch-insert rows, are not modelled. They appear only as identities or simple values.
- `exp/ingest/pipeline/ledger_pipeline.go` is not part of this model.

## Notes

`TransactionFee` returns 0 in three cases:
- the base fee is 0;
- the XDR transaction holds no operations yet;
- base fee × operation count is a multiple of 2^32, because the product is truncated to uint32. For example, a base fee of 2^31 with two operations gives 0.

See `Txnbuild.TransactionFeeResult` and `Txnbuild.TransactionFeeWrapsToZero`.
