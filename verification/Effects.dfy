/** What each message does to the observer, written out: its events field by field, and its new state. */
module Effects {
  import opened Base
  import opened Wire
  import opened Sql
  import opened Events
  import opened Observer
  import Runs
  import Coordinates
  import Reading

  // ---- events -----------------------------------------------------------------

  function Number(s: State, name: EventName): nat {
    if name in s.counters then s.counters[name] + 1 else 1
  }

  /** What every event of a step has from the state as a whole. */
  predicate OfState(e: Event, s: State, epoch: nat, name: EventName) {
    e.name == name && e.connection == s.id && e.reliable == s.reliable && e.startup == s.startup && e.epoch == epoch &&
    e.occurrence == Number(s, name)
  }

  predicate OfNoCycle(e: Event) {
    e.cycle == 0 && e.statementIndex == 0 && e.kind == Other && e.fingerprint == Missing && e.row == None
  }

  predicate OfCycle(e: Event, cycle: nat, index: nat, st: Statement) {
    e.cycle == cycle && e.statementIndex == index && e.kind == st.kind && e.fingerprint == st.fingerprint
  }

  /** An event made for the server describes the oldest cycle: the statement next to be answered or, if there is
      none, the last one, and its number among the completions of the cycle. */
  predicate OfFront(e: Event, s: State, name: EventName) {
    && OfState(e, s, s.epoch, name)
    && (if s.cycles == [] then OfNoCycle(e)
        else
          var c := s.cycles[0];
          if c.statements != [] then OfCycle(e, c.id, c.statementIndex + 1, c.statements[0])
          else OfCycle(e, c.id, if c.statementIndex == 0 then 1 else c.statementIndex, c.last))
  }

  /** Bumping other names leaves a number alone. */
  lemma {:induction false} EmitExactly(s: State, names: seq<EventName>, end: End)
    requires Coordinates.Distinct(names)
    ensures forall i :: 0 <= i < |names| ==> Emit(s, names, end)[i] == EventAt(s, names[i], end)
    decreases |names|
  {
    if names != [] {
      var t := Bump(s, names[0]);
      assert forall i, j :: 0 <= i < j < |names[1..]| ==> names[1..][i] == names[i + 1] != names[j + 1] == names[1..][j];
      EmitExactly(t, names[1..], end);
      forall i | 1 <= i < |names|
        ensures Emit(s, names, end)[i] == EventAt(s, names[i], end)
      {
        assert names[1..][i - 1] == names[i] != names[0];
        BumpOther(s, names[0], names[i], end);
      }
    }
  }

  lemma BumpOther(s: State, bumped: EventName, name: EventName, end: End)
    requires bumped != name
    ensures EventAt(Bump(s, bumped), name, end) == EventAt(s, name, end)
  {
  }

  lemma FrontEvent(s: State, name: EventName)
    ensures OfFront(EventAt(s, name, Front), s, name)
    ensures EventAt(s, name, Front).row == if name.ResultRow? && s.cycles != [] then Some(s.cycles[0].rows) else None
  {
  }

  /** The events of a server message, in order: these names, about the oldest cycle. */
  predicate Announces(s: State, m: ServerMessage, names: seq<EventName>) {
    var es := BackendEvents(s, m);
    |es| == |names| && forall i :: 0 <= i < |names| ==> OfFront(es[i], s, names[i])
  }

  lemma SameFront(s: State, m: ServerMessage, e: Event, name: EventName)
    requires OfFront(e, Before(s, m), name) && !Acknowledges(m) && !m.ParameterStatus?
    ensures OfFront(e, s, name)
  {
  }

  lemma AnnouncesNames(s: State, m: ServerMessage)
    requires !Acknowledges(m) && !m.ParameterStatus?
    ensures Announces(s, m, ServerNames(Before(s, m), m))
    ensures forall i :: 0 <= i < |BackendEvents(s, m)| ==>
              BackendEvents(s, m)[i].row ==
              if ServerNames(Before(s, m), m)[i].ResultRow? && Before(s, m).cycles != [] then Some(Before(s, m).cycles[0].rows) else None
  {
    var b, names := Before(s, m), ServerNames(Before(s, m), m);
    Coordinates.ServerNamesDistinct(b, m);
    EmitExactly(b, names, Front);
    forall i | 0 <= i < |names|
      ensures OfFront(BackendEvents(s, m)[i], s, names[i])
      ensures BackendEvents(s, m)[i].row == if names[i].ResultRow? && b.cycles != [] then Some(b.cycles[0].rows) else None
    {
      FrontEvent(b, names[i]);
      SameFront(s, m, BackendEvents(s, m)[i], names[i]);
    }
  }

  /** A RowDescription starts a result; a DataRow is a row, counted; a CommandComplete ends command, execution and
      result; an ErrorResponse is an error. Nothing else but a ReadyForQuery is an event. */
  lemma ServerFrameEvents(s: State, f: Frame)
    ensures f.tag == 84 ==> Announces(s, ReadServer(f), [ResultStarted])
    ensures f.tag == 68 ==> Announces(s, ReadServer(f), [ResultRow])
    ensures f.tag == 68 ==> BackendEvents(s, ReadServer(f))[0].row == if s.cycles == [] then None else Some(s.cycles[0].rows + 1)
    ensures f.tag == 67 ==> Announces(s, ReadServer(f), [CommandCompleted, ExecutionCompleted, ResultCompleted])
    ensures f.tag == 69 ==> Announces(s, ReadServer(f), [BackendError])
    ensures f.tag !in {67, 68, 69, 84, 90} ==> BackendEvents(s, ReadServer(f)) == []
    ensures f.tag != 68 ==> forall i :: 0 <= i < |BackendEvents(s, ReadServer(f))| ==> BackendEvents(s, ReadServer(f))[i].row == None
  {
    var m := ReadServer(f);
    Reading.ReadsServerTag(f);
    if !Acknowledges(m) && !m.ParameterStatus? {
      AnnouncesNames(s, m);
    }
  }

  // ---- ReadyForQuery ------------------------------------------------------------

  /** COMMIT and ROLLBACK, as the server labels them. */
  const COMMITTED: Bytes := [67, 79, 77, 77, 73, 84]
  const ROLLED_BACK: Bytes := [82, 79, 76, 76, 66, 65, 67, 75]

  /** The cycle has ended well, and the flag is set. */
  predicate EndedWell(s: State, body: Bytes) {
    body == [73] && s.reliable && s.cycles != [] && !s.cycles[0].error
  }

  function Failure(s: State, body: Bytes): seq<EventName> {
    if body == [69] && !s.tx.FailedTransaction? then [TransactionFailed] else []
  }

  /** What a ReadyForQuery with that body completes: a commit or rollback that was asked for and is labelled so,
      or, outside a block, any other statement the observer could classify. */
  function Completion(s: State, body: Bytes): seq<EventName> {
    if !EndedWell(s, body) then []
    else
      var c := s.cycles[0];
      match c.last.kind
      case Commit => if c.command == COMMITTED then [CommitCompleted] else []
      case Rollback => if c.command == ROLLED_BACK then [RollbackCompleted] else []
      case Other => []
      case _ => if s.tx.Idle? && c.command != [] then [ImplicitCompleted] else []
  }

  lemma ReadyFrameEvents(s: State, body: Bytes)
    ensures body in {[73], [84], [69]} ==>
              Announces(s, ReadServer(Frame(90, body)), [BackendReady] + Failure(s, body) + Completion(s, body) + [ConnectionReady])
    ensures body !in {[73], [84], [69]} ==> BackendEvents(s, ReadServer(Frame(90, body))) == []
  {
    var m := ReadServer(Frame(90, body));
    Reading.ReadsReady(body);
    AnnouncesNames(s, m);
    if m.Ready? {
      ReadyNames(s, body, m.tx);
    }
  }

  lemma ReadyNames(s: State, body: Bytes, tx: TxState)
    requires (tx.Idle? <==> body == [73]) && (tx.FailedTransaction? <==> body == [69])
    ensures ServerNames(Before(s, Ready(tx)), Ready(tx)) == [BackendReady] + Failure(s, body) + Completion(s, body) + [ConnectionReady]
  {
    var c := if s.cycles == [] then NewCycle(0, false) else s.cycles[0];
    assert Before(s, Ready(tx)).cycles != [] ==> Before(s, Ready(tx)).cycles[0] == c;
    assert Verdict(Before(s, Ready(tx)), tx) == if Completion(s, body) == [] then None else Some(Completion(s, body)[0]);
  }

  // ---- completion_boundary --------------------------------------------------------

  /** A CommandComplete may confirm a commit labelled COMMIT, a rollback labelled ROLLBACK or, outside a block,
      any other statement but a BEGIN or one of no known class. */
  lemma BoundaryOfFrame(s: State, f: Frame)
    ensures Boundary(s, ReadServer(f)).Some? ==> f.tag == 67 && 0 in f.body && s.reliable && s.cycles != []
    ensures forall tag, rest :: 0 !in tag && f == Frame(67, tag + [0] + rest) && s.reliable && s.cycles != [] ==>
              var c := s.cycles[0];
              var kind := if c.statements != [] then c.statements[0].kind else c.last.kind;
              Boundary(s, ReadServer(f)) ==
                (if kind == Commit then (if tag == COMMITTED then Some(CommitCompleted) else None)
                 else if kind == Rollback then (if tag == ROLLED_BACK then Some(RollbackCompleted) else None)
                 else if s.tx.Idle? && kind != Begin && kind != Other then Some(ImplicitCompleted)
                 else None)
  {
    Reading.ReadsServerTag(f);
    if 0 !in f.body {
      Reading.CStrOfNone(f.body);
    }
    forall tag, rest | 0 !in tag && f == Frame(67, tag + [0] + rest)
      ensures ReadServer(f) == CommandComplete(Some(tag))
    {
      Reading.ReadsCompletion(tag, rest);
    }
  }

  // ---- events of client messages ----------------------------------------------------

  /** The cycle an extended message belongs to: the newest one while it is open, else a new one. */
  predicate HasOpen(s: State) {
    s.cycles != [] && !s.cycles[|s.cycles| - 1].sealed
  }

  function Home(s: State): Cycle {
    if HasOpen(s) then s.cycles[|s.cycles| - 1]
    else Cycle(s.nextCycle + 1, [], Statement(Other, Missing), 0, [], false, true, false, 0, 0, false, [])
  }

  function Rest(s: State): seq<Cycle> {
    if HasOpen(s) then s.cycles[..|s.cycles| - 1] else s.cycles
  }

  function NextNumber(s: State): nat {
    if HasOpen(s) then s.nextCycle else s.nextCycle + 1
  }

  /** The statement an Execute runs, as far as the observer knows its portal. */
  function Run(s: State, portal: Option<Bytes>): Statement {
    if portal.Some? && portal.value in s.portals then s.portals[portal.value] else Statement(Other, Missing)
  }

  /** Work from idle that is alone in flight gets an epoch of its own. */
  predicate Allocates(s: State, query: bool) {
    s.tx.Idle? && if query then s.cycles == [] else Rest(s) == [] && !Home(s).epochAllocated
  }

  function Requests(kind: StatementClass): seq<EventName> {
    match kind
    case Begin => [BeginRequested]
    case Commit => [CommitRequested]
    case Rollback => [RollbackRequested]
    case _ => []
  }

  /** The events of a client message, in order, all about one statement of one cycle. */
  predicate Asks(s: State, m: ClientMessage, names: seq<EventName>, epoch: nat, cycle: nat, index: nat, st: Statement) {
    var es := FrontendEvents(s, m);
    |es| == |names| && forall i :: 0 <= i < |names| ==> OfState(es[i], s, epoch, names[i]) && OfCycle(es[i], cycle, index, st) && es[i].row == None
  }

  lemma AsksNames(s: State, m: ClientMessage, cycle: nat, index: nat, st: Statement)
    requires Opens(m)
    requires var c := Newest(Received(s, m));
             c.id == cycle && c.executions == index && Subject(c, Back) == st
    ensures Asks(s, m, ClientNames(s, m), Received(s, m).epoch, cycle, index, st)
  {
    Coordinates.ClientNamesDistinct(s, m);
    EmitExactly(Received(s, m), ClientNames(s, m), Back);
    ReceivedKeeps(s, m);
    forall i | 0 <= i < |ClientNames(s, m)|
      ensures var e := EventAt(Received(s, m), ClientNames(s, m)[i], Back);
              OfState(e, s, Received(s, m).epoch, ClientNames(s, m)[i]) && OfCycle(e, cycle, index, st) && e.row == None
    {
      BackEvent(Received(s, m), ClientNames(s, m)[i]);
      assert !ClientNames(s, m)[i].ResultRow?;
    }
  }

  lemma ReceivedKeeps(s: State, m: ClientMessage)
    ensures var t := Received(s, m);
            t.id == s.id && t.reliable == s.reliable && t.startup == s.startup && t.counters == s.counters && t.tx == s.tx
  {
  }

  lemma BackEvent(s: State, name: EventName)
    requires s.cycles != [] && !name.ResultRow?
    ensures var e, c := EventAt(s, name, Back), Newest(s);
            OfState(e, s, s.epoch, name) && OfCycle(e, c.id, c.executions, Subject(c, Back)) && e.row == None
  {
  }

  /** A Query opens a cycle of its own and is its only statement. */
  lemma QueryEvents(s: State, st: Statement)
    ensures Asks(s, Query(st), [QueryReceived, ExecutionStarted] + Requests(st.kind),
                 if Allocates(s, true) then s.epoch + 1 else s.epoch, s.nextCycle + 1, 1, st)
  {
    Runs.ClientCycles(s, Query(st));
    AsksNames(s, Query(st), s.nextCycle + 1, 1, st);
  }

  /** An Execute is the next statement of the open cycle, or the first of a new one. */
  lemma ExecuteEvents(s: State, portal: Option<Bytes>)
    ensures Asks(s, Execute(portal), [FrontendExecute, ExecutionStarted] + Requests(Run(s, portal).kind),
                 if Allocates(s, false) then s.epoch + 1 else s.epoch, Home(s).id, Home(s).executions + 1, Run(s, portal))
  {
    Runs.ClientCycles(s, Execute(portal));
    AsksNames(s, Execute(portal), Home(s).id, Home(s).executions + 1, Run(s, portal));
  }

  /** A Sync is about the last statement asked for in its cycle. */
  lemma SyncEvents(s: State)
    ensures var c := Home(s);
            Asks(s, Sync, [FrontendSync], s.epoch, c.id, c.executions,
                 if c.statements != [] then c.statements[|c.statements| - 1] else c.last)
  {
    Runs.ClientCycles(s, Sync);
    var c := Home(s);
    AsksNames(s, Sync, c.id, c.executions, if c.statements != [] then c.statements[|c.statements| - 1] else c.last);
  }

  lemma OtherClientEvents(s: State, m: ClientMessage)
    requires !m.Query? && !m.Execute? && !m.Sync?
    ensures FrontendEvents(s, m) == []
  {
  }

  /** `query.forwarded` is about the statement just asked for. */
  lemma ForwardedEventIs(s: State)
    ensures var es := ForwardedEvents(s);
            && |es| == 1 && OfState(es[0], s, s.epoch, QueryForwarded) && es[0].row == None
            && (if s.cycles == [] then OfNoCycle(es[0])
                else
                  var c := s.cycles[|s.cycles| - 1];
                  OfCycle(es[0], c.id, c.executions, if c.statements != [] then c.statements[|c.statements| - 1] else c.last))
    ensures Forwarded(s).(counters := s.counters) == s
  {
  }

  // ---- the new state after a client message -------------------------------------------

  /** The state a message leaves, apart from the counters. */
  predicate MovesTo(s: State, m: ClientMessage, t: State) {
    Frontend(s, m).(counters := s.counters) == t
  }

  lemma MovesToReceived(s: State, m: ClientMessage)
    ensures MovesTo(s, m, Received(s, m))
  {
    TallyOnlyCounts(Received(s, m), ClientNames(s, m));
    ReceivedKeeps(s, m);
  }

  lemma AllMoveToReceived(s: State)
    ensures forall m :: MovesTo(s, m, Received(s, m))
  {
    forall m
      ensures MovesTo(s, m, Received(s, m))
    {
      MovesToReceived(s, m);
    }
  }

  /** A message of the extended protocol changes its cycle, and perhaps the names. */
  predicate JoinsAs(s: State, m: ClientMessage, c: Cycle, prepared: Names, portals: Names, epoch: nat) {
    MovesTo(s, m, s.(cycles := Rest(s) + [c], nextCycle := NextNumber(s), prepared := prepared, portals := portals,
                     epoch := epoch))
  }

  lemma ExtendedEffects(s: State)
    ensures forall name, st :: JoinsAs(s, Parse(name, st), Home(s).(mutations := Home(s).mutations + [ParseOf(name, st)]),
                                       s.prepared[name := st], s.portals, s.epoch)
    ensures forall kind, name :: JoinsAs(s, Close(kind, name), Home(s).(mutations := Home(s).mutations + [CloseOf(kind, name)]),
                                         if kind == 83 then s.prepared - {name} else s.prepared,
                                         if kind == 80 then s.portals - {name} else s.portals, s.epoch)
    ensures JoinsAs(s, Sync, Home(s).(sealed := true), s.prepared, s.portals, s.epoch)
    ensures JoinsAs(s, Malformed, Home(s), s.prepared, s.portals, s.epoch)
  {
    AllMoveToReceived(s);
  }

  lemma BindEffect(s: State, portal: Bytes, source: Bytes)
    ensures source in s.prepared ==>
              JoinsAs(s, Bind(portal, source), Home(s).(mutations := Home(s).mutations + [BindOf(portal, s.prepared[source])]),
                      s.prepared, s.portals[portal := s.prepared[source]], s.epoch)
    ensures source !in s.prepared ==>
              JoinsAs(s, Bind(portal, source), Home(s), s.prepared, s.portals - {portal}, s.epoch)
  {
    MovesToReceived(s, Bind(portal, source));
  }

  lemma ExecuteEffect(s: State, portal: Option<Bytes>)
    ensures var now := Allocates(s, false);
            var c := Home(s);
            JoinsAs(s, Execute(portal),
                    c.(statements := c.statements + [Run(s, portal)], executions := c.executions + 1,
                       epochAllocated := c.epochAllocated || now),
                    s.prepared, s.portals, if now then s.epoch + 1 else s.epoch)
  {
    MovesToReceived(s, Execute(portal));
  }

  /** A Query forgets the unnamed statement and portal everywhere, and opens a cycle of its own. */
  lemma QueryEffect(s: State, st: Statement)
    ensures var now := Allocates(s, true);
            MovesTo(s, Query(st),
            s.(prepared := s.prepared - {[]}, portals := s.portals - {[]},
               confirmedPrepared := s.confirmedPrepared - {[]}, confirmedPortals := s.confirmedPortals - {[]},
               nextCycle := s.nextCycle + 1, epoch := if now then s.epoch + 1 else s.epoch,
               cycles := s.cycles + [Cycle(s.nextCycle + 1, [st], Statement(Other, Missing), 0, [], false, false, true, 0, 1, now, [])]))
  {
    MovesToReceived(s, Query(st));
    var c := NewCycle(s.nextCycle + 1, false);
    assert [] + [st] == [st];
  }

  lemma NoEffect(s: State, m: ClientMessage)
    requires m.Describe? || m.Flush? || m.Terminate? || m.OtherRequest?
    ensures MovesTo(s, m, s)
  {
    MovesToReceived(s, m);
  }

  // ---- the new state after a server message -------------------------------------------

  /** The oldest cycle, changed. */
  function WithFront(s: State, c: Cycle): State {
    s.(cycles := if s.cycles == [] then [] else [c] + s.cycles[1..])
  }

  predicate Leaves(s: State, m: ServerMessage, t: State) {
    Backend(s, m).(counters := s.counters) == t
  }

  /** The two halves of the step, around its events. */
  lemma LeavesLeft(s: State, m: ServerMessage)
    ensures Leaves(s, m, After(Before(s, m), m))
  {
    Runs.StepShape(s, Runs.FromServer(m));
  }

  /** The oldest pending mutation, confirmed. */
  lemma AcknowledgementEffect(s: State, m: ServerMessage)
    requires Acknowledges(m) && s.cycles != [] && s.cycles[0].mutations != []
    ensures var c := s.cycles[0];
            var t := WithFront(s, c.(mutations := c.mutations[1..]));
            Leaves(s, m,
              match c.mutations[0]
              case ParseOf(name, st) => if m.ParseComplete? then t.(confirmedPrepared := s.confirmedPrepared[name := st]) else t.(reliable := false)
              case BindOf(portal, st) => if m.BindComplete? then t.(confirmedPortals := s.confirmedPortals[portal := st]) else t.(reliable := false)
              case CloseOf(kind, name) =>
                if !m.CloseComplete? then t.(reliable := false)
                else if kind == 83 then t.(confirmedPrepared := s.confirmedPrepared - {name})
                else t.(confirmedPortals := s.confirmedPortals - {name}))
  {
    LeavesLeft(s, m);
  }

  lemma StrayAcknowledgementEffect(s: State, m: ServerMessage)
    requires Acknowledges(m) && (s.cycles == [] || s.cycles[0].mutations == [])
    ensures Leaves(s, m, s.(reliable := false))
  {
    LeavesLeft(s, m);
    assert s.cycles != [] ==> [s.cycles[0]] + s.cycles[1..] == s.cycles;
  }

  lemma SilentEffects(s: State, m: ServerMessage)
    requires m.RowDescription? || m.NoData? || m.EmptyQuery? || m.BadReady? || m.OtherReply? || m == ParameterStatus(None)
    ensures Leaves(s, m, s)
  {
    LeavesLeft(s, m);
    assert s.cycles != [] ==> [s.cycles[0]] + s.cycles[1..] == s.cycles;
  }

  lemma ParameterEffect(s: State, name: Bytes)
    ensures Leaves(s, ParameterStatus(Some(name)), s.(startup := s.startup.(applicationName := Some(name))))
  {
    LeavesLeft(s, ParameterStatus(Some(name)));
    assert s.cycles != [] ==> [s.cycles[0]] + s.cycles[1..] == s.cycles;
  }

  lemma RowEffect(s: State)
    ensures s.cycles == [] ==> Leaves(s, DataRow, s)
    ensures s.cycles != [] ==> Leaves(s, DataRow, WithFront(s, s.cycles[0].(rows := s.cycles[0].rows + 1)))
  {
    LeavesLeft(s, DataRow);
  }

  /** The statement answered becomes the last one, and its rows are over. */
  function Answered(c: Cycle): Cycle {
    c.(statements := if c.statements == [] then [] else c.statements[1..],
       last := if c.statements == [] then c.last else c.statements[0],
       rows := 0)
  }

  lemma CompletionEffect(s: State, tag: Option<Bytes>)
    ensures s.cycles == [] ==> Leaves(s, CommandComplete(tag), s) && Leaves(s, PortalSuspended, s)
    ensures s.cycles != [] ==>
              var c := s.cycles[0];
              Leaves(s, CommandComplete(tag), WithFront(s, Answered(c).(command := if tag.Some? then tag.value else [],
                                        statementIndex := if c.extended then c.statementIndex + 1 else c.statementIndex)))
    ensures s.cycles != [] ==> Leaves(s, PortalSuspended, WithFront(s, Answered(s.cycles[0])))
  {
    LeavesLeft(s, CommandComplete(tag));
    LeavesLeft(s, PortalSuspended);
  }

  lemma ErrorEffect(s: State)
    ensures Leaves(s, ErrorResponse,
              s.(prepared := s.confirmedPrepared, portals := s.confirmedPortals,
                 cycles := if s.cycles == [] then [] else [s.cycles[0].(error := true, mutations := [])] + s.cycles[1..]))
  {
    LeavesLeft(s, ErrorResponse);
  }

  /** A ReadyForQuery ends the oldest cycle; idle ends the portals; the last cycle restores what is confirmed. */
  lemma ReadyEffect(s: State, tx: TxState)
    ensures |s.cycles| > 1 ==>
              Leaves(s, Ready(tx), s.(tx := tx, cycles := s.cycles[1..],
                                      portals := if tx.Idle? then map[] else s.portals,
                                      confirmedPortals := if tx.Idle? then map[] else s.confirmedPortals))
    ensures |s.cycles| <= 1 ==>
              Leaves(s, Ready(tx), s.(tx := tx, cycles := [], reliable := true, prepared := s.confirmedPrepared,
                                      portals := if tx.Idle? then map[] else s.confirmedPortals,
                                      confirmedPortals := if tx.Idle? then map[] else s.confirmedPortals))
  {
    LeavesLeft(s, Ready(tx));
    assert s.cycles != [] ==> [s.cycles[0]] + s.cycles[1..] == s.cycles;
  }
}
