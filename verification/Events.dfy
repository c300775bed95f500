/** Statements and semantic events as data: crates/pgfault-events/src/lib.rs. */
module Events {
  import opened Base
  import opened Sql

  /** The digest of an SQL text. The hash function stays uninterpreted: a digest is known by its text. */
  datatype Fingerprint = Missing | DigestOf(sql: Bytes)

  datatype Statement = Statement(kind: StatementClass, fingerprint: Fingerprint)

  /** `Statement::default()`. */
  const NO_STATEMENT: Statement := Statement(Other, Missing)

  function NewStatement(sql: Bytes): Statement {
    Statement(Classify(sql), DigestOf(sql))
  }

  datatype Startup = Startup(user: Option<Bytes>, database: Option<Bytes>, applicationName: Option<Bytes>)

  /** The twenty listed names, and every other text a scenario file may hold. */
  datatype EventName =
    | QueryReceived | QueryForwarded | FrontendExecute | FrontendSync | ExecutionStarted
    | BeginRequested | CommitRequested | RollbackRequested
    | ResultStarted | ResultRow | ResultCompleted | CommandCompleted | ExecutionCompleted
    | BackendError | BackendReady | ConnectionReady
    | TransactionFailed | CommitCompleted | RollbackCompleted | ImplicitCompleted
    | Unlisted(text: string)

  datatype Event = Event(
    connection: nat,
    reliable: bool,
    startup: Startup,
    epoch: nat,
    cycle: nat,
    statementIndex: nat,
    kind: StatementClass,
    fingerprint: Fingerprint,
    name: EventName,
    occurrence: nat,
    row: Option<nat>)
}
