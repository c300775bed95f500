/** The observer as the object the proxy updates in place: crates/pgfault-state/src/lib.rs. */
module ConnectionStates {
  import opened Base
  import opened Wire
  import opened Sql
  import opened Events
  import opened Observer

  /** The epoch is allocated once the message has joined its cycle. */
  lemma EpochAllocated(s: State, m: ClientMessage, cycles: seq<Cycle>)
    requires Executes(m) && cycles == Older(s, m) + [Joined(s, m)]
    ensures var allocates := s.tx.Idle? && |cycles| == 1 && !cycles[0].epochAllocated;
            && Received(s, m).cycles == (if allocates then [cycles[0].(epochAllocated := true)] else cycles)
            && Received(s, m).epoch == (if allocates then s.epoch + 1 else s.epoch)
  {
    assert |cycles| == 1 <==> Older(s, m) == [];
  }

  lemma QueryAllocates(s: State, statement: Statement, cycles: seq<Cycle>)
    requires var c := NewCycle(s.nextCycle + 1, false);
             cycles == s.cycles + [c.(statements := c.statements + [statement], executions := c.executions + 1)]
    ensures var allocates := s.tx.Idle? && |cycles| == 1 && !cycles[0].epochAllocated;
            && Received(s, Query(statement)).cycles == (if allocates then [cycles[0].(epochAllocated := true)] else cycles)
            && Received(s, Query(statement)).epoch == (if allocates then s.epoch + 1 else s.epoch)
            && Received(s, Query(statement)).nextCycle == s.nextCycle + 1
  {
    EpochAllocated(s, Query(statement), cycles);
  }

  /** Acknowledgements and parameters announce nothing. */
  lemma SilentReply(s: State, m: ServerMessage)
    requires Acknowledges(m) || m.ParameterStatus?
    ensures Backend(s, m) == Before(s, m) && BackendEvents(s, m) == []
  {
    var b := Before(s, m);
    assert b.cycles != [] ==> [b.cycles[0]] + b.cycles[1..] == b.cycles;
  }

  lemma SilentSuspension(s: State)
    ensures Backend(s, PortalSuspended) == After(s, PortalSuspended) && BackendEvents(s, PortalSuspended) == []
  {
    assert s.cycles != [] ==> [s.cycles[0]] + s.cycles[1..] == s.cycles;
    assert Before(s, PortalSuspended) == s;
  }

  lemma UnknownBindReceived(s: State, portal: Bytes, source: Bytes)
    requires source !in s.prepared
    ensures Received(s, Bind(portal, source)) == Received(s.(portals := s.portals - {portal}), Malformed)
  {
  }

  class ConnectionState {
    const id: nat
    var startup: Startup
    var tx: TxState
    var epoch: nat
    var prepared: Names
    var portals: Names
    var cycles: seq<Cycle>
    var nextCycle: nat
    var reliable: bool
    var confirmedPrepared: Names
    var confirmedPortals: Names
    var counters: map<EventName, nat>

    /** The value the specification functions work on. */
    ghost function View(): State
      reads this
    {
      State(id, startup, tx, epoch, prepared, portals, cycles, nextCycle, reliable,
            confirmedPrepared, confirmedPortals, counters)
    }

    constructor (id: nat, startup: Startup)
      ensures View() == Initial(id, startup)
    {
      this.id := id;
      this.startup := startup;
      tx, epoch, nextCycle, reliable := Idle, 0, 0, true;
      prepared, portals, confirmedPrepared, confirmedPortals := map[], map[], map[], map[];
      cycles, counters := [], map[];
    }

    /** `cycle`. */
    method OpenCycle(extended: bool)
      modifies `cycles, `nextCycle
      ensures if !extended || old(cycles) == [] || old(cycles)[|old(cycles)| - 1].sealed
              then nextCycle == old(nextCycle) + 1 && cycles == old(cycles) + [NewCycle(nextCycle, extended)]
              else nextCycle == old(nextCycle) && cycles == old(cycles)
    {
      if !extended || |cycles| == 0 || cycles[|cycles| - 1].sealed {
        nextCycle := nextCycle + 1;
        cycles := cycles + [NewCycle(nextCycle, extended)];
      }
    }

    method ReplaceNewest(c: Cycle)
      requires cycles != []
      modifies `cycles
      ensures cycles == old(cycles)[..|old(cycles)| - 1] + [c]
    {
      cycles := cycles[|cycles| - 1 := c];
    }

    method ReplaceOldest(c: Cycle)
      requires cycles != []
      modifies `cycles
      ensures cycles == [c] + old(cycles)[1..]
    {
      cycles := cycles[0 := c];
    }

    /** The cycle an event is about. */
    method Focused(end: End) returns (c: Option<Cycle>)
      ensures c == Focus(View(), end)
    {
      c := if |cycles| == 0 then None else Some(if end.Front? then cycles[0] else cycles[|cycles| - 1]);
    }

    /** `event`: describes the current state and counts the name. */
    method NextEvent(name: EventName, end: End) returns (e: Event)
      modifies `counters
      ensures View() == Bump(old(View()), name)
      ensures e == EventAt(old(View()), name, end)
    {
      var c := Focused(end);
      var count := (if name in counters then counters[name] else 0) + 1;
      e := About(c, end, name, Event(id, reliable, startup, epoch, 0, 0, Other, Missing, name, count, None));
      counters := counters[name := count];
    }

    /** One event after another, each counted before the next. */
    method EmitAll(names: seq<EventName>, end: End) returns (out: seq<Event>)
      modifies `counters
      ensures View() == Tally(old(View()), names)
      ensures out == Emit(old(View()), names, end)
    {
      out := [];
      assert names[..0] == [];
      for i := 0 to |names|
        invariant View() == Tally(old(View()), names[..i])
        invariant out == Emit(old(View()), names[..i], end)
      {
        TallyAppend(old(View()), names[..i], [names[i]], end);
        assert names[..i] + [names[i]] == names[..i + 1];
        var e := NextEvent(names[i], end);
        out := out + [e];
      }
      assert names[..|names|] == names;
    }

    /** Queues what a later acknowledgement will confirm. */
    method Await(p: Mutation)
      modifies `cycles, `nextCycle
      ensures var opens := old(cycles) == [] || old(cycles)[|old(cycles)| - 1].sealed;
              var c := if opens then NewCycle(old(nextCycle) + 1, true) else old(cycles)[|old(cycles)| - 1];
              && nextCycle == (if opens then old(nextCycle) + 1 else old(nextCycle))
              && cycles == (if opens then old(cycles) else old(cycles)[..|old(cycles)| - 1]) +
                           [c.(mutations := c.mutations + [p])]
    {
      OpenCycle(true);
      var c := cycles[|cycles| - 1];
      ReplaceNewest(c.(mutations := c.mutations + [p]));
    }

    method OnParse(name: Bytes, statement: Statement)
      modifies this
      ensures View() == Received(old(View()), Parse(name, statement))
    {
      prepared := prepared[name := statement];
      Await(ParseOf(name, statement));
    }

    method OnBind(portal: Bytes, source: Bytes)
      modifies this
      ensures View() == Received(old(View()), Bind(portal, source))
    {
      if source in prepared {
        var statement := prepared[source];
        portals := portals[portal := statement];
        Await(BindOf(portal, statement));
      } else {
        OnUnknownBind(portal, source);
      }
    }

    /** Nothing is known to be bound, so no acknowledgement is awaited. */
    method OnUnknownBind(portal: Bytes, source: Bytes)
      requires source !in prepared
      modifies this
      ensures View() == Received(old(View()), Bind(portal, source))
    {
      UnknownBindReceived(View(), portal, source);
      portals := portals - {portal};
      OnMalformed();
    }

    method OnMalformed()
      modifies `cycles, `nextCycle
      ensures View() == Received(old(View()), Malformed)
    {
      OpenCycle(true);
      assert cycles == Older(old(View()), Malformed) + [Joined(old(View()), Malformed)];
    }

    method OnClose(kind: byte, name: Bytes)
      modifies this
      ensures View() == Received(old(View()), Close(kind, name))
    {
      Await(CloseOf(kind, name));
      if kind == UPPER_S {
        prepared := prepared - {name};
      } else if kind == UPPER_P {
        portals := portals - {name};
      }
    }

    method OnSync()
      modifies this
      ensures View() == Received(old(View()), Sync)
    {
      OpenCycle(true);
      ReplaceNewest(cycles[|cycles| - 1].(sealed := true));
    }

    /** Queues a statement in the cycle it belongs to. */
    method Run(statement: Statement, extended: bool)
      modifies `cycles, `nextCycle
      ensures var opens := !extended || old(cycles) == [] || old(cycles)[|old(cycles)| - 1].sealed;
              var c := if opens then NewCycle(old(nextCycle) + 1, extended) else old(cycles)[|old(cycles)| - 1];
              && nextCycle == (if opens then old(nextCycle) + 1 else old(nextCycle))
              && cycles == (if opens then old(cycles) else old(cycles)[..|old(cycles)| - 1]) +
                           [c.(statements := c.statements + [statement], executions := c.executions + 1)]
    {
      OpenCycle(extended);
      var c := cycles[|cycles| - 1];
      ReplaceNewest(c.(statements := c.statements + [statement], executions := c.executions + 1));
    }

    /** Allocates a transaction epoch when work begins from idle. */
    method AllocateEpoch()
      modifies `cycles, `epoch
      ensures if tx.Idle? && |old(cycles)| == 1 && !old(cycles)[0].epochAllocated
              then epoch == old(epoch) + 1 && cycles == [old(cycles)[0].(epochAllocated := true)]
              else epoch == old(epoch) && cycles == old(cycles)
    {
      if tx.Idle? && |cycles| == 1 && !cycles[0].epochAllocated {
        epoch := epoch + 1;
        ReplaceOldest(cycles[0].(epochAllocated := true));
      }
    }

    method RequestNames(received: EventName, kind: StatementClass) returns (names: seq<EventName>)
      ensures names == [received, ExecutionStarted] +
                       match kind
                       case Begin => [BeginRequested]
                       case Commit => [CommitRequested]
                       case Rollback => [RollbackRequested]
                       case _ => []
    {
      names := [received, ExecutionStarted];
      match kind {
        case Begin => names := names + [BeginRequested];
        case Commit => names := names + [CommitRequested];
        case Rollback => names := names + [RollbackRequested];
        case _ =>
      }
    }

    /** A simple query destroys the unnamed statement and portal. */
    method ForgetUnnamed()
      modifies `prepared, `portals, `confirmedPrepared, `confirmedPortals
      ensures prepared == old(prepared) - {[]} && portals == old(portals) - {[]}
      ensures confirmedPrepared == old(confirmedPrepared) - {[]} && confirmedPortals == old(confirmedPortals) - {[]}
    {
      prepared, portals := prepared - {[]}, portals - {[]};
      confirmedPrepared, confirmedPortals := confirmedPrepared - {[]}, confirmedPortals - {[]};
    }

    method OnQuery(statement: Statement)
      modifies this
      ensures View() == Received(old(View()), Query(statement))
    {
      ForgetUnnamed();
      Run(statement, false);
      QueryAllocates(old(View()), statement, cycles);
      AllocateEpoch();
    }

    method OnExecute(portal: Option<Bytes>) returns (statement: Statement)
      modifies this
      ensures View() == Received(old(View()), Execute(portal))
      ensures statement == Requested(old(View()), Execute(portal))
    {
      statement := NO_STATEMENT;
      if portal.Some? && portal.value in portals {
        statement := portals[portal.value];
      }
      Run(statement, true);
      EpochAllocated(old(View()), Execute(portal), cycles);
      AllocateEpoch();
    }

    /** The observer's part of `frontend`, before the events are made. */
    method Receive(f: Frame) returns (names: seq<EventName>)
      modifies this
      ensures View() == Received(old(View()), ReadClient(f))
      ensures names == ClientNames(old(View()), ReadClient(f))
    {
      names := [];
      if f.tag == UPPER_P {
        var strings := TwoStrings(f.body);
        if strings.Some? {
          var statement := NewStatement(strings.value.1);
          OnParse(strings.value.0, statement);
        } else {
          OnMalformed();
        }
      } else if f.tag == UPPER_B {
        var strings := TwoStrings(f.body);
        if strings.Some? {
          OnBind(strings.value.0, strings.value.1);
        } else {
          OnMalformed();
        }
      } else if f.tag == UPPER_C {
        if |f.body| > 0 {
          var name := Text(f.body[1..]);
          if name.Some? {
            OnClose(f.body[0], name.value);
          }
        }
      } else if f.tag == UPPER_Q {
        var text := Text(f.body);
        var statement := if text.None? then NO_STATEMENT else NewStatement(text.value);
        OnQuery(statement);
        names := RequestNames(QueryReceived, statement.kind);
      } else if f.tag == UPPER_E {
        var statement := OnExecute(Text(f.body));
        names := RequestNames(FrontendExecute, statement.kind);
      } else if f.tag == UPPER_S {
        OnSync();
        names := [FrontendSync];
      }
    }

    /** `frontend`. */
    method Frontend(f: Frame) returns (events: seq<Event>)
      modifies this
      ensures View() == Observer.Frontend(old(View()), ReadClient(f))
      ensures events == FrontendEvents(old(View()), ReadClient(f))
    {
      var names := Receive(f);
      events := EmitAll(names, Back);
    }

    /** `forwarded`. */
    method ForwardedEvent() returns (e: Event)
      modifies `counters
      ensures View() == Forwarded(old(View()))
      ensures [e] == ForwardedEvents(old(View()))
    {
      e := NextEvent(QueryForwarded, Back);
    }

    /** `completion_boundary`. */
    method CompletionBoundary(f: Frame) returns (b: Option<EventName>)
      ensures b == Boundary(View(), ReadServer(f))
    {
      if f.tag != UPPER_C || !reliable || |cycles| == 0 {
        return None;
      }
      var c := cycles[0];
      var kind := (if |c.statements| > 0 then c.statements[0] else c.last).kind;
      var text := Text(f.body);
      if text.None? {
        return None;
      }
      match kind {
        case Commit => return if text.value == COMMIT then Some(CommitCompleted) else None;
        case Rollback => return if text.value == ROLLBACK then Some(RollbackCompleted) else None;
        case _ =>
          return if tx == Idle && kind != Begin && kind != Other then Some(ImplicitCompleted) else None;
      }
    }

    method OnAcknowledge(f: Frame)
      requires f.tag == DIGIT_1 || f.tag == DIGIT_2 || f.tag == DIGIT_3
      modifies this
      ensures View() == Before(old(View()), ReadServer(f))
    {
      if |cycles| == 0 || |cycles[0].mutations| == 0 {
        reliable := false;
        return;
      }
      var c := cycles[0];
      var mutation := c.mutations[0];
      ReplaceOldest(c.(mutations := c.mutations[1..]));
      match mutation {
        case ParseOf(name, statement) =>
          if f.tag == DIGIT_1 {
            confirmedPrepared := confirmedPrepared[name := statement];
          } else {
            reliable := false;
          }
        case BindOf(portal, statement) =>
          if f.tag == DIGIT_2 {
            confirmedPortals := confirmedPortals[portal := statement];
          } else {
            reliable := false;
          }
        case CloseOf(kind, name) =>
          if f.tag == DIGIT_3 {
            if kind == UPPER_S {
              confirmedPrepared := confirmedPrepared - {name};
            } else {
              confirmedPortals := confirmedPortals - {name};
            }
          } else {
            reliable := false;
          }
      }
    }

    /** The statement answered leaves the queue. */
    method Retired(c: Cycle) returns (r: Cycle)
      ensures r == Retire(c)
    {
      r := c;
      if |r.statements| > 0 {
        r := r.(last := r.statements[0], statements := r.statements[1..]);
      }
      r := r.(rows := 0);
    }

    method FinishStatement(tag: Option<Bytes>)
      modifies this
      ensures View() == After(old(View()), CommandComplete(tag))
    {
      if |cycles| > 0 {
        var c := Retired(cycles[0]);
        c := c.(command := if tag.Some? then tag.value else []);
        if c.extended {
          c := c.(statementIndex := c.statementIndex + 1);
        }
        ReplaceOldest(c);
      }
    }

    method OnCommandComplete(tag: Option<Bytes>) returns (out: seq<Event>)
      modifies this
      ensures View() == Observer.Backend(old(View()), CommandComplete(tag))
      ensures out == BackendEvents(old(View()), CommandComplete(tag))
    {
      assert Before(View(), CommandComplete(tag)) == View() by {
        assert cycles != [] ==> [cycles[0]] + cycles[1..] == cycles;
      }
      out := EmitAll([CommandCompleted, ExecutionCompleted, ResultCompleted], Front);
      FinishStatement(tag);
    }

    method OnPortalSuspended()
      modifies this
      ensures View() == Observer.Backend(old(View()), PortalSuspended) && BackendEvents(old(View()), PortalSuspended) == []
    {
      SilentSuspension(View());
      if |cycles| > 0 {
        var c := Retired(cycles[0]);
        ReplaceOldest(c);
      }
    }

    method OnDataRow() returns (out: seq<Event>)
      modifies this
      ensures View() == Observer.Backend(old(View()), DataRow)
      ensures out == BackendEvents(old(View()), DataRow)
    {
      if |cycles| > 0 {
        ReplaceOldest(cycles[0].(rows := cycles[0].rows + 1));
      }
      assert View() == Before(old(View()), DataRow);
      out := EmitAll([ResultRow], Front);
    }

    method OnError() returns (out: seq<Event>)
      modifies this
      ensures View() == Observer.Backend(old(View()), ErrorResponse)
      ensures out == BackendEvents(old(View()), ErrorResponse)
    {
      if |cycles| > 0 {
        ReplaceOldest(cycles[0].(error := true, mutations := []));
      }
      prepared, portals := confirmedPrepared, confirmedPortals;
      assert View() == Before(old(View()), ErrorResponse);
      out := EmitAll([BackendError], Front);
    }

    method OnParameterStatus(body: Bytes)
      modifies this
      ensures View() == Observer.Backend(old(View()), ReadServer(Frame(UPPER_S, body)))
      ensures BackendEvents(old(View()), ReadServer(Frame(UPPER_S, body))) == []
    {
      SilentReply(View(), ReadServer(Frame(UPPER_S, body)));
      var first := CStr(body);
      if first.Some? && first.value.0 == APPLICATION_NAME {
        var second := CStr(first.value.1);
        if second.Some? {
          startup := startup.(applicationName := Some(second.value.0));
        }
      }
    }

    /** The completion a ReadyForQuery announces, judged on the oldest cycle. */
    method Completed(newTx: TxState) returns (v: Option<EventName>)
      ensures v == Verdict(View(), newTx)
    {
      if |cycles| == 0 || newTx != Idle || cycles[0].error || !reliable {
        return None;
      }
      var c := cycles[0];
      match c.last.kind {
        case Commit => return if c.command == COMMIT then Some(CommitCompleted) else None;
        case Rollback => return if c.command == ROLLBACK then Some(RollbackCompleted) else None;
        case _ =>
          return if tx == Idle && |c.command| > 0 && c.last.kind != Other then Some(ImplicitCompleted) else None;
      }
    }

    method OnReady(newTx: TxState) returns (out: seq<Event>)
      modifies this
      ensures View() == Observer.Backend(old(View()), Ready(newTx))
      ensures out == BackendEvents(old(View()), Ready(newTx))
    {
      var names := [BackendReady];
      if newTx == FailedTransaction && tx != newTx {
        names := names + [TransactionFailed];
      }
      var completed := Completed(newTx);
      if completed.Some? {
        names := names + [completed.value];
      }
      names := names + [ConnectionReady];
      assert Before(View(), Ready(newTx)) == View() by {
        assert cycles != [] ==> [cycles[0]] + cycles[1..] == cycles;
      }
      assert names == ServerNames(View(), Ready(newTx));
      out := EmitAll(names, Front);
      Leave(newTx);
    }

    /** A body other than I, T or E changes nothing. */
    method OnReadyBody(body: Bytes) returns (out: seq<Event>)
      modifies this
      ensures View() == Observer.Backend(old(View()), ReadServer(Frame(UPPER_Z, body)))
      ensures out == BackendEvents(old(View()), ReadServer(Frame(UPPER_Z, body)))
    {
      out := [];
      if body == [UPPER_I] {
        out := OnReady(Idle);
      } else if body == [UPPER_T] {
        out := OnReady(InTransaction);
      } else if body == [UPPER_E] {
        out := OnReady(FailedTransaction);
      }
    }

    /** The oldest cycle is over; an empty queue restores what the server has confirmed. */
    method Leave(newTx: TxState)
      modifies this
      ensures View() == Observer.Settle(old(View()), newTx)
    {
      tx := newTx;
      if |cycles| > 0 {
        cycles := cycles[1..];
      }
      if newTx == Idle {
        portals, confirmedPortals := map[], map[];
      }
      if |cycles| == 0 {
        reliable := true;
        prepared, portals := confirmedPrepared, confirmedPortals;
      }
    }

    /** `backend`. */
    method Backend(f: Frame) returns (out: seq<Event>)
      modifies this
      ensures View() == Observer.Backend(old(View()), ReadServer(f))
      ensures out == BackendEvents(old(View()), ReadServer(f))
    {
      out := [];
      assert f == Frame(f.tag, f.body);
      if f.tag == UPPER_S {
        OnParameterStatus(f.body);
      } else if f.tag == DIGIT_1 || f.tag == DIGIT_2 || f.tag == DIGIT_3 {
        SilentReply(View(), ReadServer(f));
        OnAcknowledge(f);
      } else if f.tag == UPPER_T {
        out := EmitAll([ResultStarted], Front);
      } else if f.tag == UPPER_D {
        out := OnDataRow();
      } else if f.tag == UPPER_C {
        out := OnCommandComplete(Text(f.body));
      } else if f.tag == LOWER_S {
        OnPortalSuspended();
      } else if f.tag == UPPER_E {
        out := OnError();
      } else if f.tag == UPPER_Z {
        out := OnReadyBody(f.body);
      }
    }
  }
}
