/** The protocol observer as functions of its state: crates/pgfault-state/src/lib.rs. */
module Observer {
  import opened Base
  import opened Wire
  import opened Sql
  import opened Events

  datatype TxState = Idle | InTransaction | FailedTransaction

  datatype Mutation =
    | ParseOf(name: Bytes, statement: Statement)
    | BindOf(portal: Bytes, statement: Statement)
    | CloseOf(kind: byte, name: Bytes)

  /** One request cycle: everything the server answers with a single ReadyForQuery. */
  datatype Cycle = Cycle(
    id: nat,
    statements: seq<Statement>,
    last: Statement,
    rows: nat,
    command: Bytes,
    error: bool,
    extended: bool,
    sealed: bool,
    statementIndex: nat,
    executions: nat,
    epochAllocated: bool,
    mutations: seq<Mutation>)

  type Names = map<Bytes, Statement>

  datatype State = State(
    id: nat,
    startup: Startup,
    tx: TxState,
    epoch: nat,
    prepared: Names,
    portals: Names,
    cycles: seq<Cycle>,
    nextCycle: nat,
    reliable: bool,
    confirmedPrepared: Names,
    confirmedPortals: Names,
    counters: map<EventName, nat>)

  function Initial(id: nat, startup: Startup): State {
    State(id, startup, Idle, 0, map[], map[], [], 0, true, map[], map[], map[])
  }

  function NewCycle(id: nat, extended: bool): Cycle {
    Cycle(id, [], NO_STATEMENT, 0, [], false, extended, !extended, 0, 0, false, [])
  }

  // ---- reading messages ---------------------------------------------------

  const UPPER_B: byte := 66
  const UPPER_C: byte := 67
  const UPPER_D: byte := 68
  const UPPER_E: byte := 69
  const UPPER_H: byte := 72
  const UPPER_I: byte := 73
  const UPPER_P: byte := 80
  const UPPER_Q: byte := 81
  const UPPER_S: byte := 83
  const UPPER_T: byte := 84
  const UPPER_X: byte := 88
  const UPPER_Z: byte := 90
  const LOWER_N: byte := 110
  const LOWER_S: byte := 115
  const DIGIT_1: byte := 49
  const DIGIT_2: byte := 50
  const DIGIT_3: byte := 51

  /** A client message with its SQL already classified. `Malformed` is a Parse or Bind whose strings are not
      terminated; it still opens a cycle. */
  datatype ClientMessage =
    | Parse(name: Bytes, statement: Statement)
    | Bind(portal: Bytes, source: Bytes)
    | Close(kind: byte, name: Bytes)
    | Execute(target: Option<Bytes>)
    | Query(statement: Statement)
    | Sync
    | Malformed
    | Describe
    | Flush
    | Terminate
    | OtherRequest

  datatype ServerMessage =
    | ParameterStatus(applicationName: Option<Bytes>)
    | ParseComplete
    | BindComplete
    | CloseComplete
    | RowDescription
    | NoData
    | DataRow
    | CommandComplete(tag: Option<Bytes>)
    | PortalSuspended
    | EmptyQuery
    | ErrorResponse
    | Ready(tx: TxState)
    | BadReady
    | OtherReply

  function Text(body: Bytes): Option<Bytes> {
    match CStr(body)
    case None => None
    case Some((t, _)) => Some(t)
  }

  function TwoStrings(body: Bytes): Option<(Bytes, Bytes)> {
    match CStr(body)
    case None => None
    case Some((first, rest)) =>
      match CStr(rest)
      case None => None
      case Some((second, _)) => Some((first, second))
  }

  function ReadClient(f: Frame): ClientMessage {
    if f.tag == UPPER_P then
      match TwoStrings(f.body)
      case None => Malformed
      case Some((name, sql)) => Parse(name, NewStatement(sql))
    else if f.tag == UPPER_B then
      match TwoStrings(f.body)
      case None => Malformed
      case Some((portal, source)) => Bind(portal, source)
    else if f.tag == UPPER_C then
      if f.body == [] || Text(f.body[1..]).None? then OtherRequest else Close(f.body[0], Text(f.body[1..]).value)
    else if f.tag == UPPER_E then Execute(Text(f.body))
    else if f.tag == UPPER_Q then
      Query(if Text(f.body).None? then NO_STATEMENT else NewStatement(Text(f.body).value))
    else if f.tag == UPPER_S then Sync
    else if f.tag == UPPER_D then Describe
    else if f.tag == UPPER_H then Flush
    else if f.tag == UPPER_X then Terminate
    else OtherRequest
  }

  const APPLICATION_NAME: Bytes := [97, 112, 112, 108, 105, 99, 97, 116, 105, 111, 110, 95, 110, 97, 109, 101]

  function ReadServer(f: Frame): ServerMessage {
    if f.tag == UPPER_S then
      match TwoStrings(f.body)
      case None => ParameterStatus(None)
      case Some((key, value)) => ParameterStatus(if key == APPLICATION_NAME then Some(value) else None)
    else if f.tag == DIGIT_1 then ParseComplete
    else if f.tag == DIGIT_2 then BindComplete
    else if f.tag == DIGIT_3 then CloseComplete
    else if f.tag == UPPER_T then RowDescription
    else if f.tag == LOWER_N then NoData
    else if f.tag == UPPER_D then DataRow
    else if f.tag == UPPER_C then CommandComplete(Text(f.body))
    else if f.tag == LOWER_S then PortalSuspended
    else if f.tag == UPPER_I then EmptyQuery
    else if f.tag == UPPER_E then ErrorResponse
    else if f.tag == UPPER_Z then
      if f.body == [UPPER_I] then Ready(Idle)
      else if f.body == [UPPER_T] then Ready(InTransaction)
      else if f.body == [UPPER_E] then Ready(FailedTransaction)
      else BadReady
    else OtherReply
  }

  // ---- events -------------------------------------------------------------

  /** Client-side events describe the newest cycle, server-side events the oldest. */
  datatype End = Front | Back

  function Focus(s: State, end: End): Option<Cycle> {
    if s.cycles == [] then None
    else Some(if end.Front? then s.cycles[0] else s.cycles[|s.cycles| - 1])
  }

  function Subject(c: Cycle, end: End): Statement {
    if c.statements == [] then c.last
    else if end.Front? then c.statements[0]
    else c.statements[|c.statements| - 1]
  }

  function IndexOf(c: Cycle, end: End): nat {
    if end.Back? then c.executions
    else if c.statements != [] then c.statementIndex + 1
    else if c.statementIndex == 0 then 1 else c.statementIndex
  }

  function Count(s: State, name: EventName): nat {
    if name in s.counters then s.counters[name] else 0
  }

  /** An event about one cycle, or about none. */
  function About(c: Option<Cycle>, end: End, name: EventName, blank: Event): Event {
    if c.None? then blank.(name := name)
    else
      var subject := Subject(c.value, end);
      blank.(cycle := c.value.id,
             statementIndex := IndexOf(c.value, end),
             kind := subject.kind,
             fingerprint := subject.fingerprint,
             name := name,
             row := if name.ResultRow? then Some(c.value.rows) else None)
  }

  function EventAt(s: State, name: EventName, end: End): Event {
    About(Focus(s, end), end, name,
             Event(s.id, s.reliable, s.startup, s.epoch, 0, 0, Other, Missing, name, Count(s, name) + 1, None))
  }

  function Bump(s: State, name: EventName): State {
    s.(counters := s.counters[name := Count(s, name) + 1])
  }

  function Tally(s: State, names: seq<EventName>): State
    decreases |names|
  {
    if names == [] then s else Tally(Bump(s, names[0]), names[1..])
  }

  function Emit(s: State, names: seq<EventName>, end: End): (es: seq<Event>)
    ensures |es| == |names|
    decreases |names|
  {
    if names == [] then [] else [EventAt(s, names[0], end)] + Emit(Bump(s, names[0]), names[1..], end)
  }

  // ---- client messages ----------------------------------------------------

  function Newest(s: State): Cycle
    requires s.cycles != []
  {
    s.cycles[|s.cycles| - 1]
  }

  /** The messages that take part in a request cycle. */
  predicate Opens(m: ClientMessage) {
    match m
    case Describe => false
    case Flush => false
    case Terminate => false
    case OtherRequest => false
    case _ => true
  }

  /** The statement a Query or Execute runs, as far as the observer can tell. */
  function Requested(s: State, m: ClientMessage): Statement {
    match m
    case Query(statement) => statement
    case Execute(Some(portal)) => if portal in s.portals then s.portals[portal] else NO_STATEMENT
    case _ => NO_STATEMENT
  }

  /** The acknowledgement a message will need; a Bind to a name unknown here waits for none. */
  function Pending(s: State, m: ClientMessage): seq<Mutation> {
    match m
    case Parse(name, statement) => [ParseOf(name, statement)]
    case Bind(portal, source) => if source in s.prepared then [BindOf(portal, s.prepared[source])] else []
    case Close(kind, name) => [CloseOf(kind, name)]
    case _ => []
  }

  predicate Executes(m: ClientMessage) {
    m.Query? || m.Execute?
  }

  /** The names a message leaves behind if the server accepts it. */
  function PreparedAfter(s: State, m: ClientMessage): Names {
    match m
    case Parse(name, statement) => s.prepared[name := statement]
    case Close(kind, name) => if kind == UPPER_S then s.prepared - {name} else s.prepared
    case Query(_) => s.prepared - {[]}
    case _ => s.prepared
  }

  function PortalsAfter(s: State, m: ClientMessage): Names {
    match m
    case Bind(portal, source) =>
      if source in s.prepared then s.portals[portal := s.prepared[source]] else s.portals - {portal}
    case Close(kind, name) => if kind == UPPER_P then s.portals - {name} else s.portals
    case Query(_) => s.portals - {[]}
    case _ => s.portals
  }

  /** The effect on the cycle a message belongs to. */
  function Extend(c: Cycle, s: State, m: ClientMessage): Cycle {
    match m
    case Execute(_) => c.(statements := c.statements + [Requested(s, m)], executions := c.executions + 1)
    case Query(_) => c.(statements := c.statements + [Requested(s, m)], executions := c.executions + 1)
    case Sync => c.(sealed := true)
    case _ => if Pending(s, m) == [] then c else c.(mutations := c.mutations + Pending(s, m))
  }

  /** `cycle`: a simple query always opens a cycle, an extended message only after a sealed one. */
  predicate OpensNew(s: State, m: ClientMessage) {
    m.Query? || s.cycles == [] || Newest(s).sealed
  }

  /** The cycles before the one the message belongs to. */
  function Older(s: State, m: ClientMessage): seq<Cycle> {
    if OpensNew(s, m) then s.cycles else s.cycles[..|s.cycles| - 1]
  }

  /** The cycle the message belongs to, once extended. */
  function Joined(s: State, m: ClientMessage): Cycle {
    Extend(if OpensNew(s, m) then NewCycle(s.nextCycle + 1, !m.Query?) else Newest(s), s, m)
  }

  /** Work that begins from idle, with nothing else in flight, gets a transaction epoch of its own. */
  predicate StartsEpoch(s: State, m: ClientMessage) {
    Executes(m) && s.tx.Idle? && Older(s, m) == [] && !Joined(s, m).epochAllocated
  }

  function Received(s: State, m: ClientMessage): State {
    if !Opens(m) then s
    else
      s.(prepared := PreparedAfter(s, m),
         portals := PortalsAfter(s, m),
         confirmedPrepared := if m.Query? then s.confirmedPrepared - {[]} else s.confirmedPrepared,
         confirmedPortals := if m.Query? then s.confirmedPortals - {[]} else s.confirmedPortals,
         nextCycle := if OpensNew(s, m) then s.nextCycle + 1 else s.nextCycle,
         epoch := if StartsEpoch(s, m) then s.epoch + 1 else s.epoch,
         cycles := Older(s, m) +
           [if StartsEpoch(s, m) then Joined(s, m).(epochAllocated := true) else Joined(s, m)])
  }

  function ClientNames(s: State, m: ClientMessage): seq<EventName> {
    if Executes(m) then
      [if m.Query? then QueryReceived else FrontendExecute, ExecutionStarted] +
      match Requested(s, m).kind
      case Begin => [BeginRequested]
      case Commit => [CommitRequested]
      case Rollback => [RollbackRequested]
      case _ => []
    else if m.Sync? then [FrontendSync]
    else []
  }

  function Frontend(s: State, m: ClientMessage): State {
    Tally(Received(s, m), ClientNames(s, m))
  }

  function FrontendEvents(s: State, m: ClientMessage): seq<Event> {
    Emit(Received(s, m), ClientNames(s, m), Back)
  }

  function Forwarded(s: State): State {
    Tally(s, [QueryForwarded])
  }

  function ForwardedEvents(s: State): seq<Event> {
    Emit(s, [QueryForwarded], Back)
  }

  // ---- server messages ----------------------------------------------------

  predicate Acknowledges(m: ServerMessage) {
    m.ParseComplete? || m.BindComplete? || m.CloseComplete?
  }

  predicate Matches(p: Mutation, m: ServerMessage) {
    match p
    case ParseOf(_, _) => m.ParseComplete?
    case BindOf(_, _) => m.BindComplete?
    case CloseOf(_, _) => m.CloseComplete?
  }

  /** An acknowledgement must fit the oldest pending mutation. */
  predicate Expected(s: State, m: ServerMessage) {
    s.cycles != [] && s.cycles[0].mutations != [] && Matches(s.cycles[0].mutations[0], m)
  }

  /** A mutation of the prepared statements; portals live elsewhere. */
  function ApplyPrepared(names: Names, p: Mutation): Names {
    match p
    case ParseOf(name, statement) => names[name := statement]
    case CloseOf(kind, name) => if kind == UPPER_S then names - {name} else names
    case BindOf(_, _) => names
  }

  function ApplyPortal(names: Names, p: Mutation): Names {
    match p
    case BindOf(portal, statement) => names[portal := statement]
    case CloseOf(kind, name) => if kind == UPPER_S then names else names - {name}
    case ParseOf(_, _) => names
  }

  /** The effect on the oldest cycle, before the events are made. */
  function Answer(c: Cycle, m: ServerMessage): Cycle {
    if Acknowledges(m) then c.(mutations := if c.mutations == [] then [] else c.mutations[1..])
    else if m.DataRow? then c.(rows := c.rows + 1)
    else if m.ErrorResponse? then c.(error := true, mutations := [])
    else c
  }

  function Before(s: State, m: ServerMessage): State {
    var confirms := Acknowledges(m) && Expected(s, m);
    s.(startup :=
         if m.ParameterStatus? && m.applicationName.Some? then s.startup.(applicationName := m.applicationName)
         else s.startup,
       reliable := s.reliable && (Acknowledges(m) ==> Expected(s, m)),
       confirmedPrepared :=
         if confirms then ApplyPrepared(s.confirmedPrepared, s.cycles[0].mutations[0]) else s.confirmedPrepared,
       confirmedPortals :=
         if confirms then ApplyPortal(s.confirmedPortals, s.cycles[0].mutations[0]) else s.confirmedPortals,
       prepared := if m.ErrorResponse? then s.confirmedPrepared else s.prepared,
       portals := if m.ErrorResponse? then s.confirmedPortals else s.portals,
       cycles := if s.cycles == [] then [] else [Answer(s.cycles[0], m)] + s.cycles[1..])
  }

  /** The statement a completion or suspension answers leaves the queue. */
  function Retire(c: Cycle): Cycle {
    if c.statements == [] then c.(rows := 0)
    else c.(statements := c.statements[1..], last := c.statements[0], rows := 0)
  }

  function Complete(c: Cycle, tag: Option<Bytes>): Cycle {
    Retire(c).(
      command := if tag.Some? then tag.value else [],
      statementIndex := if c.extended then c.statementIndex + 1 else c.statementIndex)
  }

  /** The oldest cycle is over; an empty queue restores what the server has confirmed. */
  function Settle(s: State, tx: TxState): State {
    var rest := if s.cycles == [] then [] else s.cycles[1..];
    var confirmed := if tx.Idle? then map[] else s.confirmedPortals;
    s.(tx := tx,
       cycles := rest,
       reliable := s.reliable || rest == [],
       prepared := if rest == [] then s.confirmedPrepared else s.prepared,
       portals := if rest == [] then confirmed else if tx.Idle? then map[] else s.portals,
       confirmedPortals := confirmed)
  }

  /** What a completed transaction leads to, by the class of the statement and the server's tag. */
  function Outcome(s: State, kind: StatementClass, tag: Bytes): Option<EventName> {
    if kind == Commit then (if tag == COMMIT then Some(CommitCompleted) else None)
    else if kind == Rollback then (if tag == ROLLBACK then Some(RollbackCompleted) else None)
    else if s.tx.Idle? then Some(ImplicitCompleted)
    else None
  }

  /** The completion announced by a ReadyForQuery. */
  function Verdict(s: State, tx: TxState): Option<EventName> {
    if s.cycles == [] || !tx.Idle? || s.cycles[0].error || !s.reliable then None
    else
      var c := s.cycles[0];
      var v := Outcome(s, c.last.kind, c.command);
      if v == Some(ImplicitCompleted) && (c.command == [] || c.last.kind == Other) then None else v
  }

  /** `completion_boundary`: what a CommandComplete may turn out to confirm. */
  function Boundary(s: State, m: ServerMessage): Option<EventName> {
    if !m.CommandComplete? || !s.reliable || s.cycles == [] || m.tag.None? then None
    else
      var kind := Subject(s.cycles[0], Front).kind;
      var v := Outcome(s, kind, m.tag.value);
      if v == Some(ImplicitCompleted) && (kind == Begin || kind == Other) then None else v
  }

  function ServerNames(s: State, m: ServerMessage): seq<EventName> {
    match m
    case RowDescription => [ResultStarted]
    case DataRow => [ResultRow]
    case CommandComplete(_) => [CommandCompleted, ExecutionCompleted, ResultCompleted]
    case ErrorResponse => [BackendError]
    case Ready(tx) =>
      [BackendReady] +
      (if tx.FailedTransaction? && !s.tx.FailedTransaction? then [TransactionFailed] else []) +
      (if Verdict(s, tx).Some? then [Verdict(s, tx).value] else []) +
      [ConnectionReady]
    case _ => []
  }

  /** The effect on the oldest cycle, after the events are made. */
  function Finish(c: Cycle, m: ServerMessage): Cycle {
    match m
    case CommandComplete(tag) => Complete(c, tag)
    case PortalSuspended => Retire(c)
    case _ => c
  }

  function After(s: State, m: ServerMessage): State {
    if m.Ready? then Settle(s, m.tx)
    else s.(cycles := if s.cycles == [] then [] else [Finish(s.cycles[0], m)] + s.cycles[1..])
  }

  function Backend(s: State, m: ServerMessage): State {
    var b := Before(s, m);
    After(Tally(b, ServerNames(b, m)), m)
  }

  function BackendEvents(s: State, m: ServerMessage): seq<Event> {
    var b := Before(s, m);
    Emit(b, ServerNames(b, m), Front)
  }

  // ---- counting is independent of the rest --------------------------------

  lemma {:induction false} TallyOnlyCounts(s: State, names: seq<EventName>)
    ensures Tally(s, names) == s.(counters := Tally(s, names).counters)
    decreases |names|
  {
    if names != [] {
      TallyOnlyCounts(Bump(s, names[0]), names[1..]);
    }
  }

  /** The events of one step agree with its state in everything but their running number. */
  lemma {:induction false} EmitShape(s: State, names: seq<EventName>, end: End)
    ensures forall i :: 0 <= i < |names| ==>
      Emit(s, names, end)[i] == EventAt(s, names[i], end).(occurrence := Emit(s, names, end)[i].occurrence)
    decreases |names|
  {
    if names != [] {
      EmitShape(Bump(s, names[0]), names[1..], end);
      assert forall i :: 1 <= i < |names| ==> names[i] == names[1..][i - 1];
    }
  }

  lemma {:induction false} TallyAppend(s: State, first: seq<EventName>, second: seq<EventName>, end: End)
    ensures Tally(s, first + second) == Tally(Tally(s, first), second)
    ensures Emit(s, first + second, end) == Emit(s, first, end) + Emit(Tally(s, first), second, end)
    decreases |first|
  {
    if first == [] {
      assert first + second == second;
    } else {
      assert (first + second)[1..] == first[1..] + second;
      TallyAppend(Bump(s, first[0]), first[1..], second, end);
    }
  }
}
