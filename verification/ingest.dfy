/**
 * The records of Aurora's ingestion subsystem and the three constructors
 * that assemble them: New (the System), NewCursor and NewSession.
 *
 * Database handles and metric timers come from foreign packages; they are
 * modelled as identities. A caller-supplied counter `next` stands for the
 * allocator: every handle or timer a constructor creates takes the next
 * unused number, and the constructor returns the advanced counter.
 */
module Ingest {
  import opened Wrappers
  import opened Errors
  import Xdr

  /** The version tag written with every ingested row. */
  const CurrentVersion: nat := 16

  /** A parameter of a batch insert that is later exchanged for a history account id. */
  type Address = string

  type TableName = string

  const AssetStatsTableName: TableName := "asset_stats"
  const AccountsTableName: TableName := "history_accounts"
  const AssetsTableName: TableName := "history_assets"
  const EffectsTableName: TableName := "history_effects"
  const LedgersTableName: TableName := "history_ledgers"
  const OperationParticipantsTableName: TableName := "history_operation_participants"
  const OperationsTableName: TableName := "history_operations"
  const TradesTableName: TableName := "history_trades"
  const TransactionParticipantsTableName: TableName := "history_transaction_participants"
  const TransactionsTableName: TableName := "history_transactions"

  /** The ten tables the ingester writes, in declaration order. */
  const TableNames: seq<TableName> := [
    AssetStatsTableName, AccountsTableName, AssetsTableName, EffectsTableName,
    LedgersTableName, OperationParticipantsTableName, OperationsTableName,
    TradesTableName, TransactionParticipantsTableName, TransactionsTableName]

  /**
   * A `*db.Session`: Id is the identity of the handle, Pool the database
   * connection it wraps. A clone is a new handle over the same connection.
   */
  datatype DbSession = DbSession(Id: nat, Pool: nat)

  /** A `metrics.Timer`, known only by its identity. */
  datatype Timer = Timer(Id: nat)

  /** A row of the diamnet-core database, known only by its identity. */
  type CoreRow = nat

  datatype Config = Config(EnableAssetStats: bool, IngestFailedTransactions: bool, CursorName: string)

  /** The three timers; None is a nil interface value. */
  datatype IngesterMetrics = IngesterMetrics(
    ClearLedgerTimer: Option<Timer>,
    IngestLedgerTimer: Option<Timer>,
    LoadLedgerTimer: Option<Timer>)

  /** A value placed in a batch insert row. */
  datatype Value = AddressValue(address: Address) | OtherValue(id: nat)

  datatype BatchInsertBuilder = BatchInsertBuilder(
    TableName: TableName,
    Columns: seq<string>,
    rows: seq<seq<Value>>)

  datatype Asset = AssetTypeNative | AssetTypeCredit(Code: string, Issuer: Xdr.AccountId)

  /** A nil `toUpdate` map reads as the empty map. */
  datatype AssetStats = AssetStats(
    CoreSession: DbSession,
    HistorySession: DbSession,
    batchInsertBuilder: Option<BatchInsertBuilder>,
    toUpdate: map<string, Asset>)

  datatype Ingestion = Ingestion(DB: DbSession, builders: map<TableName, BatchInsertBuilder>)

  datatype EffectIngestion = EffectIngestion(
    Dest: Option<Ingestion>,
    OperationID: Xdr.Int64,
    err: Option<Error>,
    added: Xdr.Int64,
    parent: Option<Ingestion>)

  datatype LedgerBundle = LedgerBundle(
    Sequence: Xdr.Int32,
    Header: CoreRow,
    TransactionFees: seq<CoreRow>,
    Transactions: seq<CoreRow>)

  /** An iteration over the inclusive ledger range FirstLedger..LastLedger of diamnet-core. */
  datatype Cursor = Cursor(
    FirstLedger: Xdr.Int32,
    LastLedger: Xdr.Int32,
    CoreDB: DbSession,
    Metrics: Option<IngesterMetrics>,
    AssetStats: Option<AssetStats>,
    Err: Option<Error>,
    Name: string,
    lg: Xdr.Int32,
    tx: Xdr.Int64,
    op: Xdr.Int64,
    data: Option<LedgerBundle>)

  /** One attempt at ingesting into the history database; Err and Ingested are its results. */
  datatype Session = Session(
    Config: Config,
    Cursor: Option<Cursor>,
    Ingestion: Option<Ingestion>,
    Network: string,
    DiamNetCoreURL: string,
    ClearExisting: bool,
    SkipCursorUpdate: bool,
    Metrics: Option<IngesterMetrics>,
    AssetStats: Option<AssetStats>,
    Err: Option<Error>,
    Ingested: Xdr.Int64)

  /** The ingestion subsystem; `current` is the session in progress, if any. */
  datatype System = System(
    Config: Config,
    AuroraDB: DbSession,
    CoreDB: DbSession,
    Metrics: IngesterMetrics,
    Network: string,
    DiamNetCoreURL: string,
    SkipCursorUpdate: bool,
    HistoryRetentionCount: Xdr.Uint64,
    IngestFailedTransactions: bool,
    current: Option<Session>)

  /** `Clone`: a new handle, numbered `next`, over the same connection. */
  function Clone(db: DbSession, next: nat): DbSession
  {
    DbSession(next, db.Pool)
  }

  predicate TimerBelow(t: Option<Timer>, next: nat)
  {
    t.Some? ==> t.value.Id < next
  }

  /** Every identity the System holds was allocated before `next`. */
  predicate HandlesBelow(sys: System, next: nat)
  {
    && sys.AuroraDB.Id < next
    && sys.CoreDB.Id < next
    && TimerBelow(sys.Metrics.ClearLedgerTimer, next)
    && TimerBelow(sys.Metrics.IngestLedgerTimer, next)
    && TimerBelow(sys.Metrics.LoadLedgerTimer, next)
  }

  /**
   * New: the System keeps the configuration, network, core URL and both
   * handles it is given, and gets three new timers. Everything else keeps
   * its zero value; in particular the System's own IngestFailedTransactions
   * stays false whatever the configuration says.
   */
  function New(network: string, coreURL: string, core: DbSession, aurora: DbSession, config: Config, next: nat)
    : (r: (System, nat))
    ensures var (sys, next') := r;
      && sys.Config == config && sys.Network == network && sys.DiamNetCoreURL == coreURL
      && sys.CoreDB == core && sys.AuroraDB == aurora
      && !sys.SkipCursorUpdate && sys.HistoryRetentionCount == 0 && !sys.IngestFailedTransactions
      && sys.current == None
    ensures var (sys, next') := r;
      && sys.Metrics.ClearLedgerTimer.Some? && sys.Metrics.IngestLedgerTimer.Some? && sys.Metrics.LoadLedgerTimer.Some?
      && next <= sys.Metrics.ClearLedgerTimer.value.Id < sys.Metrics.IngestLedgerTimer.value.Id
         < sys.Metrics.LoadLedgerTimer.value.Id < next'
  {
    var metrics := IngesterMetrics(Some(Timer(next)), Some(Timer(next + 1)), Some(Timer(next + 2)));
    (System(config, aurora, core, metrics, network, coreURL, false, 0, false, None), next + 3)
  }

  /**
   * NewCursor: a cursor over the inclusive range first..last, named after
   * the configured cursor, that shares (does not clone) the System's core
   * handle and metrics. It starts before any ledger, with no error, no
   * loaded data and no asset stats.
   */
  function NewCursor(first: Xdr.Int32, last: Xdr.Int32, sys: System): (c: Cursor)
    ensures c.FirstLedger == first && c.LastLedger == last && c.Name == sys.Config.CursorName
    ensures c.CoreDB == sys.CoreDB && c.Metrics == Some(sys.Metrics)
    ensures c.Err == None && c.lg == 0 && c.tx == 0 && c.op == 0 && c.data == None && c.AssetStats == None
  {
    Cursor(first, last, sys.CoreDB, Some(sys.Metrics), None, None, sys.Config.CursorName, 0, 0, 0, None)
  }

  /**
   * NewSession: a session that writes through a clone of the history handle,
   * which its asset stats share, and reads core through a clone of the core
   * handle. Configuration, network, core URL and the skip flag are copied
   * from the System, whose metrics it shares; the results start empty.
   */
  function NewSession(sys: System, next: nat): (r: (Session, nat))
    ensures var (s, next') := r;
      && s.Ingestion.Some? && s.AssetStats.Some?
      && s.Ingestion.value.DB == s.AssetStats.value.HistorySession
      && s.AssetStats.value.HistorySession.Pool == sys.AuroraDB.Pool
      && s.AssetStats.value.CoreSession.Pool == sys.CoreDB.Pool
      && next <= s.AssetStats.value.CoreSession.Id < next'
      && next <= s.AssetStats.value.HistorySession.Id < next'
      && s.AssetStats.value.CoreSession != s.AssetStats.value.HistorySession
    ensures var (s, _) := r;
      && s.Config == sys.Config && s.Network == sys.Network && s.DiamNetCoreURL == sys.DiamNetCoreURL
      && s.SkipCursorUpdate == sys.SkipCursorUpdate && s.Metrics == Some(sys.Metrics)
    ensures var (s, _) := r;
      && s.Cursor == None && !s.ClearExisting && s.Err == None && s.Ingested == 0
      && s.Ingestion.value.builders == map[]
      && s.AssetStats.value.batchInsertBuilder == None && s.AssetStats.value.toUpdate == map[]
  {
    var cdb := Clone(sys.CoreDB, next);
    var hdb := Clone(sys.AuroraDB, next + 1);
    var session := Session(
      sys.Config, None, Some(Ingestion(hdb, map[])), sys.Network, sys.DiamNetCoreURL, false,
      sys.SkipCursorUpdate, Some(sys.Metrics), Some(AssetStats(cdb, hdb, None, map[])), None, 0);
    (session, next + 2)
  }

  /** The ten table names are pairwise distinct. */
  lemma TableNamesDistinct()
    ensures |TableNames| == 10
    ensures forall i, j :: 0 <= i < j < |TableNames| ==> TableNames[i] != TableNames[j]
  {
  }

  /** A System built by New holds only identities below the advanced counter. */
  lemma NewKeepsHandlesBelow(network: string, coreURL: string, core: DbSession, aurora: DbSession, config: Config, next: nat)
    requires core.Id < next && aurora.Id < next
    ensures HandlesBelow(New(network, coreURL, core, aurora, config, next).0, New(network, coreURL, core, aurora, config, next).1)
  {
  }

  /**
   * The handles of a new session are clones: different from the System's
   * own handles, over the same connections, and later sessions get handles
   * different again. The System's identities stay below the counter.
   */
  lemma NewSessionClonesAreFresh(sys: System, next: nat)
    requires HandlesBelow(sys, next)
    ensures var (s, next') := NewSession(sys, next);
      && s.AssetStats.value.CoreSession != sys.CoreDB
      && s.AssetStats.value.CoreSession != sys.AuroraDB
      && s.Ingestion.value.DB != sys.AuroraDB
      && s.Ingestion.value.DB != sys.CoreDB
      && HandlesBelow(sys, next')
    ensures var (s, next') := NewSession(sys, next);
      var (s2, _) := NewSession(sys, next');
      && s2.Ingestion.value.DB != s.Ingestion.value.DB
      && s2.AssetStats.value.CoreSession != s.AssetStats.value.CoreSession
  {
  }

  /**
   * A cursor shares the System's core handle where a session clones it; both
   * share the System's metrics, and the cursor is named by the configuration
   * the session copies.
   */
  lemma CursorSharesSessionClones(first: Xdr.Int32, last: Xdr.Int32, sys: System, next: nat)
    requires HandlesBelow(sys, next)
    ensures NewCursor(first, last, sys).CoreDB == sys.CoreDB
    ensures NewSession(sys, next).0.AssetStats.value.CoreSession != NewCursor(first, last, sys).CoreDB
    ensures NewCursor(first, last, sys).Metrics == NewSession(sys, next).0.Metrics
    ensures NewCursor(first, last, sys).Name == NewSession(sys, next).0.Config.CursorName
  {
  }

  /**
   * The failed-transactions flag: New leaves the System's own field false,
   * while the configuration a session copies keeps the requested value.
   */
  lemma FailedTransactionsFlagOnlyInConfig(network: string, coreURL: string, core: DbSession, aurora: DbSession,
                                           config: Config, next: nat)
    ensures var (sys, next') := New(network, coreURL, core, aurora, config, next);
      && !sys.IngestFailedTransactions
      && NewSession(sys, next').0.Config.IngestFailedTransactions == config.IngestFailedTransactions
  {
  }
}
