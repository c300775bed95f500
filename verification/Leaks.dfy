/** Runs of a new connection with one scenario: the gate at work, each way in which it fails, and a result cut
    short. */
module Leaks {
  import opened Base
  import opened Wire
  import opened Sql
  import opened Events
  import opened Observer
  import opened Scenarios
  import opened Traces
  import opened Relay
  import opened RelayRuns
  import opened ClientLog
  import Runs
  import Completion
  import Faults
  import Transparency
  import GateSafety
  import Truncation
  import Effects

  /** Drop everything that confirms such a completion. */
  function Drop(name: EventName): Scenario {
    Scenario(1, "drop", Selector(None, None, None, None, None, None, None, None),
             When(name, None, [], None), Action(Some(true), None, None, None))
  }

  // ---- until the verdict nothing fires ------------------------------------------

  lemma {:induction false} NothingFires(s: Scenario, es: seq<Event>)
    requires forall n :: 0 <= n < |es| ==> es[n].name != s.when.event
    ensures Fired([Fresh(s)], es) == [] && Applied([Fresh(s)], es) == [Fresh(s)]
    decreases |es|
  {
    if es != [] {
      NothingFires(s, es[..|es| - 1]);
      assert [Fresh(s)][..0] == [];
      assert FiredOn([Fresh(s)], es[|es| - 1]) == FiredOn([], es[|es| - 1]);
    }
  }

  lemma NoCompletionBeforeReady(s: State, x: Runs.Seen, n: nat)
    requires (x.FromServer? ==> !x.reply.Ready?) && n < |Runs.EventsOf(s, x)|
    ensures !Completion.Completes(Runs.EventsOf(s, x)[n].name)
  {
    Runs.StepShape(s, x);
    if Completion.Completes(Runs.NamesOf(s, x)[n]) {
      Completion.OnlyReadyCompletes(s, x, n);
    }
  }

  /** The connection is up and its only scenario still waits for a completion. */
  predicate Waiting(r: RelayState, s: Scenario) {
    r.ending == Running && r.matchers == [Fresh(s)] && r.limit.None? && Completion.Completes(s.when.event)
  }

  lemma QuietInput(r: RelayState, i: Input, s: Scenario)
    requires Waiting(r, s) && (i.ClientFrame? || (i.ServerFrame? && !ReadServer(i.frame).Ready?))
    ensures Fired(r.matchers, EventsAt(r, i)) == [] && Step(r, i).matchers == [Fresh(s)]
    ensures Faults.FaultsIn(Step(r, i).trace) == Faults.FaultsIn(r.trace)
    ensures Runs.SameButCounters(Step(r, i).observer, Runs.Left(r.observer, SeenAt(r, i)[0]))
  {
    var es := EventsAt(r, i);
    forall n | 0 <= n < |es|
      ensures es[n].name != s.when.event
    {
      NoCompletionBeforeReady(r.observer, SeenAt(r, i)[0], n);
    }
    NothingFires(s, es);
    StepShape(r, i);
    Faults.FaultsNext(r, i);
    GateSafety.ObserverLeft(r, i);
  }

  lemma QuietClient(r: RelayState, f: Frame, m: ClientMessage, s: Scenario)
    requires Waiting(r, s) && f.tag != UPPER_X
    ensures var t := Step(r, ClientFrame(f, m));
            && Waiting(t, s) && t.held == r.held && t.heldSize == r.heldSize && t.toClient == r.toClient
            && t.clock == r.clock + 1 && Faults.FaultsIn(t.trace) == Faults.FaultsIn(r.trace)
            && Runs.SameButCounters(t.observer, Received(r.observer, m))
  {
    QuietInput(r, ClientFrame(f, m), s);
    ClientShape(r, f, m);
    Transparency.InertSends(r, f, m);
  }

  /** A server frame that is not gated goes straight to the client. */
  lemma QuietServer(r: RelayState, f: Frame, s: Scenario)
    requires Waiting(r, s) && f.tag != UPPER_Z && r.held == [] && !Gated(r, f)
    ensures var t := Step(r, ServerFrame(f));
            && Waiting(t, s) && t.held == [] && t.toClient == r.toClient + [Arrival(r.clock, f)]
            && t.clock == r.clock + 1
            && Runs.SameButCounters(t.observer, Runs.Left(r.observer, Runs.FromServer(ReadServer(f))))
  {
    GateSafety.TagOfReply(f);
    QuietInput(r, ServerFrame(f), s);
    NoteKeeps(r, Backend(r.observer, ReadServer(f)), BackendEvents(r.observer, ReadServer(f)));
    PassedThrough(ServerNoted(r, f), f);
    ServerShape(r, f);
  }

  lemma PassedThrough(r: RelayState, f: Frame)
    requires r.ending == Running && r.held == [] && r.limit.None? && f.tag != UPPER_Z
    ensures Conclude(r, f, false, false, false) == r.(toClient := r.toClient + [Arrival(r.clock, f)])
  {
  }

  /** A gated one is held. */
  lemma GatedServer(r: RelayState, f: Frame, s: Scenario)
    requires Waiting(r, s) && f.tag != UPPER_Z && r.held == [] && r.heldSize == 0 && Gated(r, f) && Size(f) <= GATE_LIMIT
    ensures var t := Step(r, ServerFrame(f));
            && Waiting(t, s) && t.held == [Arrival(r.clock, f)] && t.heldSize == Size(f) && t.toClient == r.toClient
            && t.clock == r.clock + 1 && Faults.FaultsIn(t.trace) == Faults.FaultsIn(r.trace)
            && Runs.SameButCounters(t.observer, Runs.Left(r.observer, Runs.FromServer(ReadServer(f))))
  {
    GateSafety.TagOfReply(f);
    QuietInput(r, ServerFrame(f), s);
    NoteKeeps(r, Backend(r.observer, ReadServer(f)), BackendEvents(r.observer, ReadServer(f)));
    HeldBack(ServerNoted(r, f), f);
    ServerShape(r, f);
  }

  lemma HeldBack(r: RelayState, f: Frame)
    requires r.ending == Running && r.held == [] && r.heldSize == 0 && r.limit.None? && f.tag != UPPER_Z && Size(f) <= GATE_LIMIT
    ensures Conclude(r, f, true, false, false) == r.(held := [Arrival(r.clock, f)], heldSize := Size(f))
  {
  }

  lemma NewConnection(id: nat, startup: Startup, s: Scenario)
    requires Completion.Completes(s.when.event)
    ensures var r := Connected(id, startup, [s]);
            && Waiting(r, s) && r.held == [] && r.heldSize == 0 && r.toClient == [] && r.clock == 0
            && r.observer == Initial(id, startup) && Faults.FaultsIn(r.trace) == []
  {
    Faults.FaultsInOne(Lifecycle(id, "startup"));
  }

  // ---- the completion of a simple query ------------------------------------------

  /** The answer to a query of this class, labelled so, leads to that announcement once the server is idle. */
  predicate Announces(kind: StatementClass, tag: Bytes, name: EventName) {
    match name
    case CommitCompleted => kind == Commit && tag == COMMIT
    case RollbackCompleted => kind == Rollback && tag == ROLLBACK
    case ImplicitCompleted => kind !in {Other, Commit, Rollback} && tag != []
    case _ => false
  }

  /** One request cycle, idle before it, with these statements to complete. */
  predicate InFlight(s: State, statements: seq<Statement>) {
    s.reliable && s.tx.Idle? && |s.cycles| == 1 && !s.cycles[0].error && s.cycles[0].statements == statements
  }

  predicate Completed(s: State, kind: StatementClass, tag: Bytes) {
    s.reliable && s.tx.Idle? && |s.cycles| == 1 && !s.cycles[0].error && s.cycles[0].last.kind == kind && s.cycles[0].command == tag
  }

  lemma QueryInFlight(s: State, m: ClientMessage)
    requires m.Query? && s.reliable && s.tx.Idle? && s.cycles == []
    ensures InFlight(Received(s, m), [m.statement])
  {
  }

  lemma CompletionLeaves(s: State, statements: seq<Statement>, tag: Bytes)
    requires InFlight(s, statements) && statements != []
    ensures var t := Runs.Left(s, Runs.FromServer(CommandComplete(Some(tag))));
            Completed(t, statements[0].kind, tag) && t.cycles[0].statements == statements[1..]
  {
  }

  /** Whether the completion is gated is decided by the class of the statement it answers. */
  lemma GatedByClass(r: RelayState, f: Frame, s: Scenario, statements: seq<Statement>, kind: StatementClass, tag: Bytes)
    requires Waiting(r, s) && InFlight(r.observer, statements) && statements != []
    requires ReadServer(f) == CommandComplete(Some(tag)) && Announces(kind, tag, s.when.event)
    ensures Gated(r, f) <==> GateSafety.Judges(statements[0].kind, s.when.event)
  {
    var boundary := Boundary(r.observer, ReadServer(f));
    assert boundary == Some(s.when.event) <==> GateSafety.Judges(statements[0].kind, s.when.event);
    if boundary == Some(s.when.event) {
      assert Gates(r.matchers[0], s.when.event);
    }
  }

  /** An idle ReadyForQuery announces the completion, and the scenario fires. */
  lemma IdleFires(r: RelayState, f: Frame, name: EventName, kind: StatementClass, tag: Bytes)
    requires Waiting(r, Drop(name)) && Completed(r.observer, kind, tag) && Announces(kind, tag, name)
    requires ReadServer(f) == Ready(Idle)
    ensures GateSafety.FiresWith(r, ServerFrame(f), 0, 1, name)
  {
    var es := EventsAt(r, ServerFrame(f));
    IdleAnnounces(r.observer, kind, tag, name);
    NothingFires(Drop(name), es[..1]);
  }

  lemma IdleAnnounces(s: State, kind: StatementClass, tag: Bytes, name: EventName)
    requires Completed(s, kind, tag) && Announces(kind, tag, name)
    ensures var es := BackendEvents(s, Ready(Idle));
            |es| == 3 && es[0].name.BackendReady? && es[1].name == name && es[1].reliable
  {
    Completion.BeforeReady(s, Idle);
    Runs.StepShape(s, Runs.FromServer(Ready(Idle)));
    assert ServerNames(s, Ready(Idle)) == [BackendReady, name, ConnectionReady];
  }

  /** A query and its gated completion. */
  lemma QueryCompleted(r: RelayState, ask: Frame, m: ClientMessage, done: Frame, s: Scenario, tag: Bytes)
    requires Waiting(r, s) && r.held == [] && r.heldSize == 0 && r.toClient == [] && ask.tag != UPPER_X && m.Query?
    requires r.observer.reliable && r.observer.tx.Idle? && r.observer.cycles == []
    requires Announces(m.statement.kind, tag, s.when.event) && GateSafety.Judges(m.statement.kind, s.when.event)
    requires ReadServer(done) == CommandComplete(Some(tag)) && Size(done) <= GATE_LIMIT
    ensures var t := Step(Step(r, ClientFrame(ask, m)), ServerFrame(done));
            && Waiting(t, s) && t.held == [Arrival(r.clock + 1, done)] && t.heldSize == Size(done) && t.toClient == []
            && t.clock == r.clock + 2 && Faults.FaultsIn(t.trace) == Faults.FaultsIn(r.trace)
            && Completed(t.observer, m.statement.kind, tag)
  {
    var r1 := Step(r, ClientFrame(ask, m));
    GateSafety.TagOfReply(done);
    QuietClient(r, ask, m, s);
    QueryInFlight(r.observer, m);
    GatedByClass(r1, done, s, [m.statement], m.statement.kind, tag);
    GatedServer(r1, done, s);
    CompletionLeaves(r1.observer, [m.statement], tag);
  }

  lemma TwoInputs(r: RelayState, a: Input, b: Input)
    ensures Relayed(r, [a, b]) == Step(Step(r, a), b)
  {
    GateSafety.StepAfter(r, [], a);
    GateSafety.StepAfter(r, [a], b);
    assert [] + [a] == [a] && [a] + [b] == [a, b];
  }

  lemma ThirdInput(r: RelayState, a: Input, b: Input, c: Input)
    ensures Relayed(r, [a, b, c]) == Step(Relayed(r, [a, b]), c)
  {
    GateSafety.StepAfter(r, [a, b], c);
    assert [a, b] + [c] == [a, b, c];
  }

  lemma QueryRelayed(r: RelayState, ask: Frame, m: ClientMessage, done: Frame, s: Scenario, tag: Bytes)
    requires Waiting(r, s) && r.held == [] && r.heldSize == 0 && r.toClient == [] && ask.tag != UPPER_X && m.Query?
    requires r.observer.reliable && r.observer.tx.Idle? && r.observer.cycles == []
    requires Announces(m.statement.kind, tag, s.when.event) && GateSafety.Judges(m.statement.kind, s.when.event)
    requires ReadServer(done) == CommandComplete(Some(tag)) && Size(done) <= GATE_LIMIT
    ensures var t := Relayed(r, [ClientFrame(ask, m), ServerFrame(done)]);
            Waiting(t, s) && t.held == [Arrival(r.clock + 1, done)] && Completed(t.observer, m.statement.kind, tag)
  {
    QueryCompleted(r, ask, m, done, s, tag);
    TwoInputs(r, ClientFrame(ask, m), ServerFrame(done));
  }

  /** The gate at work: a query, its completion and an idle ReadyForQuery meet the assumptions of gate safety,
      the scenario fires, and the client never sees the completion. */
  lemma CompletionIsDropped(id: nat, startup: Startup, ask: Frame, m: ClientMessage, done: Frame, idle: Frame, k: StatementClass)
    requires Completion.Ending(k) && m.Query? && m.statement.kind == k && ask.tag != UPPER_X
    requires ReadServer(done) == CommandComplete(Some(GateSafety.LabelOf(k))) && Size(done) <= GATE_LIMIT
    requires ReadServer(idle) == Ready(Idle)
    ensures var r := Connected(id, startup, [Drop(Completion.DoneName(k))]);
            var before := [ClientFrame(ask, m), ServerFrame(done)];
            && GateSafety.SuspensionOrderly(r, before)
            && GateSafety.FiresWith(Relayed(r, before), ServerFrame(idle), 0, 1, Completion.DoneName(k))
            && Kept(Relayed(r, before + [ServerFrame(idle)] + []), 1)
  {
    var s := Drop(Completion.DoneName(k));
    var r := Connected(id, startup, [s]);
    var before := [ClientFrame(ask, m), ServerFrame(done)];
    NewConnection(id, startup, s);
    QueryCompleted(r, ask, m, done, s, GateSafety.LabelOf(k));
    TwoInputs(r, before[0], before[1]);
    IdleFires(Relayed(r, before), idle, Completion.DoneName(k), k, GateSafety.LabelOf(k));
    OrderlyQuery(r, before);
    GateSafety.TagOfReply(done);
    var past := GateSafety.SuppressedCompletionNeverLeaks(id, startup, [s], before, ServerFrame(idle), [], 0, 1, k);
    assert past == [before[0]];
  }

  lemma OrderlyQuery(r: RelayState, before: seq<Input>)
    requires |before| == 2 && before[0].ClientFrame? && before[1].ServerFrame? && ReadServer(before[1].frame).CommandComplete?
    ensures GateSafety.SuspensionOrderly(r, before)
  {
    assert before[..1][..0] == [];
  }

  /** A malformed ReadyForQuery lets it out: the scenario fires on a completion the client has already seen. */
  lemma MalformedReadyLeaks(id: nat, startup: Startup, r: RelayState, ask: Frame, m: ClientMessage, done: Frame, bad: Frame,
                            idle: Frame, k: StatementClass)
    requires Completion.Ending(k) && r == Connected(id, startup, [Drop(Completion.DoneName(k))])
    requires m.Query? && m.statement.kind == k && ask.tag != UPPER_X
    requires ReadServer(done) == CommandComplete(Some(GateSafety.LabelOf(k))) && Size(done) <= GATE_LIMIT
    requires bad.tag == UPPER_Z && bad.body !in {[UPPER_I], [UPPER_T], [UPPER_E]} && ReadServer(idle) == Ready(Idle)
    ensures var t := Step(Relayed(r, [ClientFrame(ask, m), ServerFrame(done)]), ServerFrame(bad));
            GateSafety.FiresWith(t, ServerFrame(idle), 0, 1, Completion.DoneName(k)) && !Kept(t, 1)
  {
    var s := Drop(Completion.DoneName(k));
    NewConnection(id, startup, s);
    QueryRelayed(r, ask, m, done, s, GateSafety.LabelOf(k));
    ReleasedTooEarly(Relayed(r, [ClientFrame(ask, m), ServerFrame(done)]), bad, idle, s, k, 1);
  }

  lemma ReleasedTooEarly(t: RelayState, bad: Frame, idle: Frame, s: Scenario, k: StatementClass, at: nat)
    requires Completion.Ending(k) && s == Drop(Completion.DoneName(k)) && Waiting(t, s) && |t.held| == 1 && t.held[0].at == at
    requires Completed(t.observer, k, GateSafety.LabelOf(k)) && ReadServer(idle) == Ready(Idle)
    requires bad.tag == UPPER_Z && bad.body !in {[UPPER_I], [UPPER_T], [UPPER_E]}
    ensures var t' := Step(t, ServerFrame(bad));
            GateSafety.FiresWith(t', ServerFrame(idle), 0, 1, Completion.DoneName(k)) && !Kept(t', at)
  {
    var t' := Step(t, ServerFrame(bad));
    GateSafety.MalformedReadyReleases(t, bad);
    assert t'.toClient[|t.toClient|] == t.held[0];
    MalformedKeepsLimit(t, bad);
    IdleFires(t', idle, Completion.DoneName(k), k, GateSafety.LabelOf(k));
  }

  lemma MalformedKeepsLimit(t: RelayState, bad: Frame)
    requires t.ending == Running && bad.tag == UPPER_Z && OnServer(t, bad).ending == Running
    ensures OnServer(t, bad).limit.None?
  {
  }

  // ---- a scenario that never fires ends the connection -----------------------------

  /** Behind the gated completion of a query outside a transaction block comes a frame that does not fit: the
      connection ends, no scenario has fired, and the client has seen nothing. */
  lemma UnfiredScenarioOverflows(id: nat, startup: Startup, s: Scenario, ask: Frame, m: ClientMessage, done: Frame, big: Frame, tag: Bytes)
    requires s.when.event.ImplicitCompleted? && m.Query? && GateSafety.Judges(m.statement.kind, ImplicitCompleted) && ask.tag != UPPER_X
    requires ReadServer(done) == CommandComplete(Some(tag)) && tag != [] && big.tag != UPPER_Z
    requires Size(done) <= GATE_LIMIT < Size(done) + Size(big)
    ensures var t := Relayed(Connected(id, startup, [s]), [ClientFrame(ask, m), ServerFrame(done), ServerFrame(big)]);
            t.ending == GateOverflow && Faults.FaultsIn(t.trace) == [] && t.toClient == []
  {
    var r := Connected(id, startup, [s]);
    NewConnection(id, startup, s);
    QueryCompleted(r, ask, m, done, s, tag);
    TwoInputs(r, ClientFrame(ask, m), ServerFrame(done));
    ThirdInput(r, ClientFrame(ask, m), ServerFrame(done), ServerFrame(big));
    BigOverflows(Relayed(r, [ClientFrame(ask, m), ServerFrame(done)]), big, s);
  }

  lemma BigOverflows(t: RelayState, big: Frame, s: Scenario)
    requires Waiting(t, s) && t.held != [] && t.heldSize + Size(big) > GATE_LIMIT && big.tag != UPPER_Z
    ensures var t' := Step(t, ServerFrame(big));
            t'.ending == GateOverflow && Faults.FaultsIn(t'.trace) == Faults.FaultsIn(t.trace) && t'.toClient == t.toClient
  {
    GateSafety.TagOfReply(big);
    QuietInput(t, ServerFrame(big), s);
    NoteKeeps(t, Backend(t.observer, ReadServer(big)), BackendEvents(t.observer, ReadServer(big)));
    DoesNotFit(ServerNoted(t, big), big, Gated(t, big));
  }

  lemma DoesNotFit(r: RelayState, f: Frame, gate: bool)
    requires r.ending == Running && r.held != [] && r.heldSize + Size(f) > GATE_LIMIT && f.tag != UPPER_Z && r.limit.None?
    ensures var t := Conclude(r, f, gate, false, false); t.ending == GateOverflow && t.toClient == r.toClient
  {
  }

  // ---- a suspended statement takes over the verdict ---------------------------------

  /** What the front cycle of a pipelined request shows; without a cycle, what a new one would. */
  predicate Shows(s: State, statements: seq<Statement>, mutations: seq<Mutation>, last: Statement, command: Bytes) {
    && s.reliable && s.tx.Idle? && |s.cycles| <= 1
    && (if s.cycles == [] then statements == [] && mutations == [] && last == NO_STATEMENT && command == []
        else
          var c := s.cycles[0];
          c.extended && !c.error && c.statements == statements && c.mutations == mutations && c.last == last && c.command == command)
  }

  /** A statement under the unnamed names. */
  predicate Named(s: State, statement: Statement) {
    [] in s.prepared && s.prepared[[]] == statement
  }

  lemma ShowsParse(s: State, sts: seq<Statement>, ms: seq<Mutation>, last: Statement, tag: Bytes, st: Statement)
    requires Shows(s, sts, ms, last, tag) && (s.cycles != [] ==> !s.cycles[0].sealed)
    ensures var t := Received(s, Parse([], st));
            Shows(t, sts, ms + [ParseOf([], st)], last, tag) && Named(t, st) && t.cycles != [] && !t.cycles[0].sealed
  {
    Runs.ClientCycles(s, Parse([], st));
  }

  lemma ShowsBind(s: State, sts: seq<Statement>, ms: seq<Mutation>, last: Statement, tag: Bytes, st: Statement)
    requires Shows(s, sts, ms, last, tag) && s.cycles != [] && !s.cycles[0].sealed && Named(s, st)
    ensures var t := Received(s, Bind([], []));
            && Shows(t, sts, ms + [BindOf([], st)], last, tag) && [] in t.portals && t.portals[[]] == st
            && t.cycles != [] && !t.cycles[0].sealed
  {
    Runs.ClientCycles(s, Bind([], []));
  }

  lemma ShowsExecute(s: State, sts: seq<Statement>, ms: seq<Mutation>, last: Statement, tag: Bytes, st: Statement)
    requires Shows(s, sts, ms, last, tag) && s.cycles != [] && !s.cycles[0].sealed && [] in s.portals && s.portals[[]] == st
    ensures var t := Received(s, Execute(Some([])));
            Shows(t, sts + [st], ms, last, tag) && t.cycles != [] && !t.cycles[0].sealed
  {
    Runs.ClientCycles(s, Execute(Some([])));
  }

  lemma ShowsSync(s: State, sts: seq<Statement>, ms: seq<Mutation>, last: Statement, tag: Bytes)
    requires Shows(s, sts, ms, last, tag) && s.cycles != [] && !s.cycles[0].sealed
    ensures Shows(Received(s, Sync), sts, ms, last, tag) && Received(s, Sync).cycles != []
  {
    Runs.ClientCycles(s, Sync);
  }

  lemma ShowsReply(s: State, sts: seq<Statement>, ms: seq<Mutation>, last: Statement, tag: Bytes, m: ServerMessage)
    requires Shows(s, sts, ms, last, tag) && s.cycles != []
    ensures var t := Runs.Left(s, Runs.FromServer(m));
            && (Acknowledges(m) && ms != [] && Matches(ms[0], m) ==> Shows(t, sts, ms[1..], last, tag) && t.cycles != [])
            && (m.CommandComplete? && m.tag.Some? && sts != [] ==> Shows(t, sts[1..], ms, sts[0], m.tag.value) && t.cycles != [])
            && (m.PortalSuspended? && sts != [] ==> Shows(t, sts[1..], ms, sts[0], tag) && t.cycles != [])
  {
    Runs.ServerCycles(s, m);
  }

  /** The connection waits, holds nothing, and its front cycle shows that. */
  predicate At(r: RelayState, s: Scenario, sts: seq<Statement>, ms: seq<Mutation>, last: Statement, tag: Bytes) {
    Waiting(r, s) && r.held == [] && Shows(r.observer, sts, ms, last, tag)
  }

  predicate Unsealed(s: State) {
    s.cycles != [] ==> !s.cycles[0].sealed
  }

  /** Parse, Bind and Execute under the unnamed names. */
  function Asking(p: Frame, b: Frame, e: Frame, st: Statement): seq<Input> {
    [ClientFrame(p, Parse([], st)), ClientFrame(b, Bind([], [])), ClientFrame(e, Execute(Some([])))]
  }

  lemma ThreeInputs(r: RelayState, x: Input, y: Input, z: Input)
    ensures Relayed(r, [x, y, z]) == Step(Step(Step(r, x), y), z)
  {
    TwoInputs(r, x, y);
    ThirdInput(r, x, y, z);
  }

  lemma AskStatement(r: RelayState, p: Frame, b: Frame, e: Frame, st: Statement, s: Scenario, sts: seq<Statement>,
                     ms: seq<Mutation>)
    requires At(r, s, sts, ms, NO_STATEMENT, []) && Unsealed(r.observer)
    requires p.tag != UPPER_X && b.tag != UPPER_X && e.tag != UPPER_X
    ensures var t := Relayed(r, Asking(p, b, e, st));
            && At(t, s, sts + [st], ms + [ParseOf([], st), BindOf([], st)], NO_STATEMENT, []) && t.observer.cycles != []
            && Unsealed(t.observer) && t.toClient == r.toClient && t.clock == r.clock + 3
  {
    var i := Asking(p, b, e, st);
    ThreeInputs(r, i[0], i[1], i[2]);
    var ms1 := ms + [ParseOf([], st)];
    var ms2 := ms1 + [BindOf([], st)];
    assert ms2 == ms + [ParseOf([], st), BindOf([], st)];
    AskOne(r, i[0], s, sts, ms, sts, ms1, st);
    AskOne(Step(r, i[0]), i[1], s, sts, ms1, sts, ms2, st);
    AskOne(Step(Step(r, i[0]), i[1]), i[2], s, sts, ms2, sts + [st], ms2, st);
  }

  /** What each of the three adds, and what the next one needs. */
  predicate Adds(s: State, m: ClientMessage, st: Statement, sts: seq<Statement>, ms: seq<Mutation>, sts': seq<Statement>,
                 ms': seq<Mutation>) {
    match m
    case Parse(name, statement) => name == [] && statement == st && sts' == sts && ms' == ms + [ParseOf([], st)]
    case Bind(portal, source) => portal == [] == source && Named(s, st) && s.cycles != [] && sts' == sts && ms' == ms + [BindOf([], st)]
    case Execute(target) =>
      target == Some([]) && [] in s.portals && s.portals[[]] == st && s.cycles != [] && sts' == sts + [st] && ms' == ms
    case _ => false
  }

  lemma AskOne(r: RelayState, i: Input, s: Scenario, sts: seq<Statement>, ms: seq<Mutation>, sts': seq<Statement>,
               ms': seq<Mutation>, st: Statement)
    requires At(r, s, sts, ms, NO_STATEMENT, []) && Unsealed(r.observer) && i.ClientFrame? && i.frame.tag != UPPER_X
    requires Adds(r.observer, i.request, st, sts, ms, sts', ms')
    ensures var t := Step(r, i);
            && At(t, s, sts', ms', NO_STATEMENT, []) && t.observer.cycles != [] && Unsealed(t.observer)
            && t.toClient == r.toClient && t.clock == r.clock + 1
            && (i.request.Parse? ==> Named(t.observer, st))
            && (i.request.Bind? ==> [] in t.observer.portals && t.observer.portals[[]] == st)
  {
    QuietClient(r, i.frame, i.request, s);
    match i.request {
      case Parse(_, _) => ShowsParse(r.observer, sts, ms, NO_STATEMENT, [], st);
      case Bind(_, _) => ShowsBind(r.observer, sts, ms, NO_STATEMENT, [], st);
      case _ => ShowsExecute(r.observer, sts, ms, NO_STATEMENT, [], st);
    }
  }

  lemma SyncOne(r: RelayState, f: Frame, s: Scenario, sts: seq<Statement>, ms: seq<Mutation>)
    requires At(r, s, sts, ms, NO_STATEMENT, []) && Unsealed(r.observer) && r.observer.cycles != [] && f.tag != UPPER_X
    ensures var t := Step(r, ClientFrame(f, Sync));
            At(t, s, sts, ms, NO_STATEMENT, []) && t.observer.cycles != [] && t.toClient == r.toClient && t.clock == r.clock + 1
  {
    QuietClient(r, f, Sync, s);
    ShowsSync(r.observer, sts, ms, NO_STATEMENT, []);
  }

  lemma ReplyOne(r: RelayState, f: Frame, s: Scenario, sts: seq<Statement>, ms: seq<Mutation>, last: Statement, tag: Bytes)
    requires At(r, s, sts, ms, last, tag) && r.observer.cycles != [] && !Gated(r, f)
    requires var m := ReadServer(f);
             (Acknowledges(m) && ms != [] && Matches(ms[0], m)) || (m.CommandComplete? && m.tag.Some? && sts != []) ||
             (m.PortalSuspended? && sts != [])
    ensures var m := ReadServer(f);
            var t := Step(r, ServerFrame(f));
            && t.observer.cycles != [] && t.toClient == r.toClient + [Arrival(r.clock, f)] && t.clock == r.clock + 1
            && (Acknowledges(m) ==> At(t, s, sts, ms[1..], last, tag))
            && (m.CommandComplete? ==> At(t, s, sts[1..], ms, sts[0], m.tag.value))
            && (m.PortalSuspended? ==> At(t, s, sts[1..], ms, sts[0], tag))
  {
    GateSafety.TagOfReply(f);
    QuietServer(r, f, s);
    ShowsReply(r.observer, sts, ms, last, tag, ReadServer(f));
  }

  lemma OnlyCompletionsAreGated(r: RelayState, f: Frame)
    requires !ReadServer(f).CommandComplete?
    ensures !Gated(r, f)
  {
  }

  lemma AcknowledgeOne(r: RelayState, f: Frame, s: Scenario, sts: seq<Statement>, p: Mutation, ms: seq<Mutation>,
                       last: Statement, tag: Bytes)
    requires At(r, s, sts, [p] + ms, last, tag) && r.observer.cycles != []
    requires Acknowledges(ReadServer(f)) && Matches(p, ReadServer(f))
    ensures var t := Step(r, ServerFrame(f));
            && At(t, s, sts, ms, last, tag) && t.observer.cycles != [] && t.clock == r.clock + 1
            && t.toClient == r.toClient + [Arrival(r.clock, f)]
  {
    OnlyCompletionsAreGated(r, f);
    ReplyOne(r, f, s, sts, [p] + ms, last, tag);
    assert ([p] + ms)[1..] == ms;
  }

  /** The server acknowledges a Parse and a Bind. */
  lemma Acknowledge(r: RelayState, one: Frame, two: Frame, s: Scenario, st: Statement, sts: seq<Statement>,
                    ms: seq<Mutation>, after: seq<Mutation>, last: Statement, tag: Bytes)
    requires At(r, s, sts, ms, last, tag) && r.observer.cycles != []
    requires ms == [ParseOf([], st)] + [BindOf([], st)] + after
    requires ReadServer(one).ParseComplete? && ReadServer(two).BindComplete?
    ensures var t := Relayed(r, [ServerFrame(one), ServerFrame(two)]);
            && At(t, s, sts, after, last, tag) && t.observer.cycles != [] && t.clock == r.clock + 2
            && t.toClient == r.toClient + [Arrival(r.clock, one)] + [Arrival(r.clock + 1, two)]
  {
    var bind := [BindOf([], st)] + after;
    assert ms == [ParseOf([], st)] + bind;
    AcknowledgeOne(r, one, s, sts, ParseOf([], st), bind, last, tag);
    AcknowledgeOne(Step(r, ServerFrame(one)), two, s, sts, BindOf([], st), after, last, tag);
    TwoInputs(r, ServerFrame(one), ServerFrame(two));
  }

  /** Two statements in one pipelined request, and the answers to them: the first is completed, the second
      suspended. */
  datatype Script = Script(
    parse: Frame, bind: Frame, execute: Frame, parse2: Frame, bind2: Frame, execute2: Frame, sync: Frame,
    parsed: Frame, bound: Frame, done: Frame, parsed2: Frame, bound2: Frame, suspended: Frame, idle: Frame)

  predicate Reads(x: Script, st: Statement, tag: Bytes, st2: Statement) {
    && ReadClient(x.parse) == Parse([], st) && ReadClient(x.parse2) == Parse([], st2)
    && ReadClient(x.bind) == ReadClient(x.bind2) == Bind([], [])
    && ReadClient(x.execute) == ReadClient(x.execute2) == Execute(Some([])) && ReadClient(x.sync) == Sync
    && ReadServer(x.parsed).ParseComplete? && ReadServer(x.bound).BindComplete?
    && ReadServer(x.parsed2).ParseComplete? && ReadServer(x.bound2).BindComplete?
    && ReadServer(x.done) == CommandComplete(Some(tag)) && ReadServer(x.suspended).PortalSuspended?
    && ReadServer(x.idle) == Ready(Idle)
  }

  function Asked(x: Script, st: Statement, st2: Statement): seq<Input> {
    Asking(x.parse, x.bind, x.execute, st) + Asking(x.parse2, x.bind2, x.execute2, st2) + [ClientFrame(x.sync, Sync)]
  }

  function FirstAnswer(x: Script): seq<Input> {
    [ServerFrame(x.parsed), ServerFrame(x.bound)] + [ServerFrame(x.done)]
  }

  function SecondAnswer(x: Script): seq<Input> {
    [ServerFrame(x.parsed2), ServerFrame(x.bound2)] + [ServerFrame(x.suspended)]
  }

  lemma NoTerminate(f: Frame)
    requires ReadClient(f).Parse? || ReadClient(f).Bind? || ReadClient(f).Execute? || ReadClient(f).Sync?
    ensures f.tag != UPPER_X
  {
  }

  lemma AskBoth(r: RelayState, x: Script, st: Statement, tag: Bytes, st2: Statement, s: Scenario)
    requires At(r, s, [], [], NO_STATEMENT, []) && Unsealed(r.observer) && Reads(x, st, tag, st2)
    ensures var t := Relayed(r, Asked(x, st, st2));
            && At(t, s, [st, st2], [ParseOf([], st), BindOf([], st), ParseOf([], st2), BindOf([], st2)], NO_STATEMENT, [])
            && t.observer.cycles != [] && t.toClient == r.toClient && t.clock == r.clock + 7
  {
    NoTerminate(x.parse);
    NoTerminate(x.bind);
    NoTerminate(x.execute);
    NoTerminate(x.parse2);
    NoTerminate(x.bind2);
    NoTerminate(x.execute2);
    NoTerminate(x.sync);
    AskTwo(r, x, st, st2, s);
  }

  lemma AskTwo(r: RelayState, x: Script, st: Statement, st2: Statement, s: Scenario)
    requires At(r, s, [], [], NO_STATEMENT, []) && Unsealed(r.observer)
    requires UPPER_X !in {x.parse.tag, x.bind.tag, x.execute.tag, x.parse2.tag, x.bind2.tag, x.execute2.tag, x.sync.tag}
    ensures var t := Relayed(r, Asked(x, st, st2));
            && At(t, s, [st, st2], [ParseOf([], st), BindOf([], st), ParseOf([], st2), BindOf([], st2)], NO_STATEMENT, [])
            && t.observer.cycles != [] && t.toClient == r.toClient && t.clock == r.clock + 7
  {
    var a, b := Asking(x.parse, x.bind, x.execute, st), Asking(x.parse2, x.bind2, x.execute2, st2);
    var ms := [ParseOf([], st), BindOf([], st)];
    var ms2 := ms + [ParseOf([], st2), BindOf([], st2)];
    assert ms2 == [ParseOf([], st), BindOf([], st), ParseOf([], st2), BindOf([], st2)];
    assert [] + [st] == [st] && [st] + [st2] == [st, st2] && [] + ms == ms;
    AskStatement(r, x.parse, x.bind, x.execute, st, s, [], []);
    AskStatement(Relayed(r, a), x.parse2, x.bind2, x.execute2, st2, s, [st], ms);
    RelayedAppend(r, a, b);
    GateSafety.StepAfter(r, a + b, ClientFrame(x.sync, Sync));
    SyncOne(Relayed(r, a + b), x.sync, s, [st, st2], ms2);
  }

  lemma AnswerFirst(r: RelayState, x: Script, st: Statement, tag: Bytes, st2: Statement, s: Scenario)
    requires At(r, s, [st, st2], [ParseOf([], st), BindOf([], st), ParseOf([], st2), BindOf([], st2)], NO_STATEMENT, [])
    requires r.observer.cycles != [] && Reads(x, st, tag, st2)
    requires Announces(st2.kind, tag, s.when.event) && !GateSafety.Judges(st.kind, s.when.event)
    ensures var t := Relayed(r, FirstAnswer(x));
            && At(t, s, [st2], [ParseOf([], st2), BindOf([], st2)], st, tag) && t.observer.cycles != []
            && t.toClient != [] && t.toClient[|t.toClient| - 1] == Arrival(r.clock + 2, x.done)
  {
    var ms2 := [ParseOf([], st2), BindOf([], st2)];
    var ms := [ParseOf([], st), BindOf([], st), ParseOf([], st2), BindOf([], st2)];
    assert ms == [ParseOf([], st)] + [BindOf([], st)] + ms2;
    var k := [ServerFrame(x.parsed), ServerFrame(x.bound)];
    Acknowledge(r, x.parsed, x.bound, s, st, [st, st2], ms, ms2, NO_STATEMENT, []);
    GateSafety.StepAfter(r, k, ServerFrame(x.done));
    DonePasses(Relayed(r, k), x.done, s, st, st2, ms2, tag);
  }

  lemma AnswerSecond(r: RelayState, one: Frame, two: Frame, f: Frame, st: Statement, tag: Bytes, st2: Statement, s: Scenario)
    requires At(r, s, [st2], [ParseOf([], st2), BindOf([], st2)], st, tag) && r.observer.cycles != []
    requires ReadServer(one).ParseComplete? && ReadServer(two).BindComplete? && ReadServer(f).PortalSuspended?
    ensures var t := Relayed(r, [ServerFrame(one), ServerFrame(two)] + [ServerFrame(f)]);
            At(t, s, [], [], st2, tag) && t.observer.cycles != [] && r.toClient <= t.toClient
  {
    var ms := [ParseOf([], st2), BindOf([], st2)];
    assert ms == [ParseOf([], st2)] + [BindOf([], st2)] + [];
    var k := [ServerFrame(one), ServerFrame(two)];
    Acknowledge(r, one, two, s, st2, [st2], ms, [], st, tag);
    GateSafety.StepAfter(r, k, ServerFrame(f));
    SuspendPasses(Relayed(r, k), f, s, st2, st, tag);
  }

  lemma SuspendPasses(r: RelayState, f: Frame, s: Scenario, st: Statement, last: Statement, tag: Bytes)
    requires At(r, s, [st], [], last, tag) && r.observer.cycles != [] && ReadServer(f).PortalSuspended?
    ensures var t := Step(r, ServerFrame(f));
            At(t, s, [], [], st, tag) && t.observer.cycles != [] && t.toClient == r.toClient + [Arrival(r.clock, f)]
  {
    OnlyCompletionsAreGated(r, f);
    ReplyOne(r, f, s, [st], [], last, tag);
    assert [st][1..] == [];
  }

  /** The completion of a statement that the gate is not for goes straight to the client. */
  lemma DonePasses(r: RelayState, f: Frame, s: Scenario, st: Statement, st2: Statement, ms: seq<Mutation>, tag: Bytes)
    requires At(r, s, [st, st2], ms, NO_STATEMENT, []) && r.observer.cycles != []
    requires ReadServer(f) == CommandComplete(Some(tag))
    requires Announces(st2.kind, tag, s.when.event) && !GateSafety.Judges(st.kind, s.when.event)
    ensures var t := Step(r, ServerFrame(f));
            && At(t, s, [st2], ms, st, tag) && t.observer.cycles != [] && t.clock == r.clock + 1
            && t.toClient == r.toClient + [Arrival(r.clock, f)]
  {
    GatedByClass(r, f, s, [st, st2], st2.kind, tag);
    ReplyOne(r, f, s, [st, st2], ms, NO_STATEMENT, []);
    assert [st, st2][1..] == [st2];
  }

  function WholeRun(x: Script, st: Statement, st2: Statement): seq<Input> {
    Asked(x, st, st2) + FirstAnswer(x) + SecondAnswer(x)
  }

  /** On a new connection, with a server that answers in order: a statement the gate is not for is completed
      with a tag that fits a suspended one after it. The scenario fires on a completion, commits and rollbacks
      and implicit ones alike, whose CommandComplete was not gated and has been written. */
  lemma SuspensionLeaks(id: nat, startup: Startup, r: RelayState, x: Script, st: Statement, tag: Bytes, st2: Statement,
                        name: EventName)
    requires Completion.Completes(name) && r == Connected(id, startup, [Drop(name)]) && Reads(x, st, tag, st2)
    requires Announces(st2.kind, tag, name) && !GateSafety.Judges(st.kind, name)
    ensures var t := Relayed(r, WholeRun(x, st, st2));
            GateSafety.FiresWith(t, ServerFrame(x.idle), 0, 1, name) && Arrival(r.clock + 9, x.done) in t.toClient
  {
    NewIsAt(id, startup, Drop(name));
    LeaksFrom(r, x, st, tag, st2, name);
  }

  lemma NewIsAt(id: nat, startup: Startup, s: Scenario)
    requires Completion.Completes(s.when.event)
    ensures var r := Connected(id, startup, [s]); At(r, s, [], [], NO_STATEMENT, []) && Unsealed(r.observer) && r.clock == 0
  {
    NewConnection(id, startup, s);
  }

  lemma LeaksFrom(r: RelayState, x: Script, st: Statement, tag: Bytes, st2: Statement, name: EventName)
    requires At(r, Drop(name), [], [], NO_STATEMENT, []) && Unsealed(r.observer) && Reads(x, st, tag, st2)
    requires Announces(st2.kind, tag, name) && !GateSafety.Judges(st.kind, name)
    ensures var t := Relayed(r, WholeRun(x, st, st2));
            GateSafety.FiresWith(t, ServerFrame(x.idle), 0, 1, name) && Arrival(r.clock + 9, x.done) in t.toClient
  {
    var s, a := Drop(name), Asked(x, st, st2);
    AskBoth(r, x, st, tag, st2, s);
    RelayedAppend(r, a, FirstAnswer(x));
    AnswerFirst(Relayed(r, a), x, st, tag, st2, s);
    RelayedAppend(r, a + FirstAnswer(x), SecondAnswer(x));
    AnswerSecond(Relayed(r, a + FirstAnswer(x)), x.parsed2, x.bound2, x.suspended, st, tag, st2, s);
    FiresAfterAll(Relayed(r, a + FirstAnswer(x)), Relayed(r, WholeRun(x, st, st2)), x, tag, st2, name, Arrival(r.clock + 9, x.done));
  }

  lemma FiresAfterAll(r: RelayState, t: RelayState, x: Script, tag: Bytes, st: Statement, name: EventName, a: Arrival)
    requires r.toClient != [] && r.toClient[|r.toClient| - 1] == a && r.toClient <= t.toClient
    requires At(t, Drop(name), [], [], st, tag) && t.observer.cycles != [] && Announces(st.kind, tag, name)
    requires ReadServer(x.idle) == Ready(Idle)
    ensures GateSafety.FiresWith(t, ServerFrame(x.idle), 0, 1, name) && a in t.toClient
  {
    ShownIsCompleted(t, Drop(name), st, tag);
    IdleFires(t, x.idle, name, st.kind, tag);
    assert t.toClient[|r.toClient| - 1] == a;
  }

  lemma ShownIsCompleted(t: RelayState, s: Scenario, st: Statement, tag: Bytes)
    requires At(t, s, [], [], st, tag) && t.observer.cycles != []
    ensures Completed(t.observer, st.kind, tag)
  {
  }

  // ---- a result cut short ------------------------------------------------------------

  /** Let `n` rows of a result through. */
  function CutAfter(n: nat): Scenario {
    Scenario(1, "cut", Selector(None, None, None, None, None, None, None, None),
             When(ResultStarted, None, [], None), Action(None, None, None, Some(n)))
  }

  function Spent(s: Scenario): MatcherState {
    MatcherState(s, 1, true)
  }

  lemma {:induction false} SpentFiresNothing(s: Scenario, es: seq<Event>)
    ensures Fired([Spent(s)], es) == [] && Applied([Spent(s)], es) == [Spent(s)]
    decreases |es|
  {
    if es != [] {
      SpentFiresNothing(s, es[..|es| - 1]);
      assert [Spent(s)][..0] == [];
      assert FiredOn([Spent(s)], es[|es| - 1]) == FiredOn([], es[|es| - 1]);
    }
  }

  /** The query of a new connection fires nothing. */
  lemma AskedQuietly(r: RelayState, ask: Frame, m: ClientMessage, s: Scenario)
    requires r.ending == Running && r.matchers == [Fresh(s)] && s.when.event.ResultStarted? && ask.tag != UPPER_X && m.Query?
    requires r.held == [] && r.toClient == [] && r.limit.None? && r.observer.reliable
    ensures var t := Step(r, ClientFrame(ask, m));
            && t.ending == Running && t.matchers == [Fresh(s)] && t.held == [] && t.toClient == [] && t.limit.None?
            && t.observer.reliable && t.clock == r.clock + 1
  {
    var i := ClientFrame(ask, m);
    var es := EventsAt(r, i);
    Runs.StepShape(r.observer, SeenAt(r, i)[0]);
    forall n | 0 <= n < |es|
      ensures es[n].name != s.when.event
    {
      if es[n].name.ResultStarted? {
        Truncation.ResultStartedName(r.observer, SeenAt(r, i)[0], n);
      }
    }
    NothingFires(s, es);
    StepShape(r, i);
    GateSafety.ObserverLeft(r, i);
    ClientShape(r, ask, m);
    Transparency.InertSends(r, ask, m);
  }

  lemma FiresAlone(s: Scenario, e: Event)
    requires Fires(Fresh(s), e) && Wanted(s) == 1
    ensures FiredOn([Fresh(s)], e) == [s] && ObserveAll([Fresh(s)], e) == [Spent(s)]
  {
    assert [Fresh(s)][..0] == [];
    assert Observed(Fresh(s), e) == Spent(s);
  }

  lemma SingleEvent(ms: seq<MatcherState>, es: seq<Event>)
    requires |es| == 1
    ensures Fired(ms, es) == FiredOn(ms, es[0]) && Applied(ms, es) == ObserveAll(ms, es[0])
  {
    assert es[..0] == [];
  }

  /** A RowDescription fires the scenario. */
  lemma DescriptionFires(r: RelayState, f: Frame, n: nat)
    requires r.ending == Running && r.matchers == [Fresh(CutAfter(n))] && r.observer.reliable && f.tag == 84
    ensures ServerFired(r, f) == [CutAfter(n)] && Step(r, ServerFrame(f)).matchers == [Spent(CutAfter(n))]
  {
    var es := BackendEvents(r.observer, ReadServer(f));
    Effects.ServerFrameEvents(r.observer, f);
    UnfilteredFires(CutAfter(n), es[0]);
    SingleEvent(r.matchers, es);
    FiresAlone(CutAfter(n), es[0]);
    StepShape(r, ServerFrame(f));
  }

  function RowInputs(rows: seq<Frame>): seq<Input> {
    seq(|rows|, i requires 0 <= i < |rows| => ServerFrame(rows[i]))
  }

  /** With its only scenario spent nothing disturbs the rows. */
  lemma {:induction false} RowsUndisturbed(r: RelayState, rows: seq<Frame>, s: Scenario)
    requires r.matchers == [Spent(s)] && forall i :: 0 <= i < |rows| ==> rows[i].tag == 68
    ensures Truncation.AllUndisturbed(r, RowInputs(rows)) && Relayed(r, RowInputs(rows)).matchers == [Spent(s)]
    ensures Transparency.FromServer(RowInputs(rows)) == rows && Truncation.Rows(rows) == |rows|
  {
    if rows != [] {
      var front, f := rows[..|rows| - 1], rows[|rows| - 1];
      assert RowInputs(rows)[..|rows| - 1] == RowInputs(front);
      RowsUndisturbed(r, front, s);
      RowUndisturbed(Relayed(r, RowInputs(front)), f, s);
      assert front + [f] == rows;
    }
  }

  lemma RowUndisturbed(r: RelayState, f: Frame, s: Scenario)
    requires r.matchers == [Spent(s)] && f.tag == 68
    ensures Truncation.Undisturbed(r, ServerFrame(f)) && Step(r, ServerFrame(f)).matchers == [Spent(s)]
  {
    SpentFiresNothing(s, EventsAt(r, ServerFrame(f)));
    StepShape(r, ServerFrame(f));
    RowIsNotGated(r, f);
  }

  lemma RowIsNotGated(r: RelayState, f: Frame)
    requires f.tag == 68
    ensures !Gated(r, f)
  {
  }

  lemma CutAfterLoads(n: nat)
    ensures Valid(CutAfter(n))
  {
    assert !IsWhite("cut"[0]);
  }

  /** From a new connection, with a scenario that loads: a query, its RowDescription and rows. The client gets the
      description and the first `n` rows, and the connection is cut as soon as they are there. */
  lemma ResultIsCut(id: nat, startup: Startup, r: RelayState, ask: Frame, m: ClientMessage, description: Frame,
                    rows: seq<Frame>, n: nat)
    requires r == Connected(id, startup, [CutAfter(n)]) && ask.tag != UPPER_X && m.Query? && description.tag == 84
    requires forall i :: 0 <= i < |rows| ==> rows[i].tag == 68
    ensures var t := Relayed(Step(Step(r, ClientFrame(ask, m)), ServerFrame(description)), RowInputs(rows));
            && Valid(CutAfter(n))
            && Transparency.Frames(t.toClient) == [description] + (if |rows| < n then rows else rows[..n])
            && t.ending == (if |rows| < n || rows == [] then Running else RowsCut)
  {
    CutAfterLoads(n);
    AskedQuietly(r, ask, m, CutAfter(n));
    CutFrom(Step(r, ClientFrame(ask, m)), description, rows, n);
  }

  lemma CutFrom(r: RelayState, description: Frame, rows: seq<Frame>, n: nat)
    requires r.ending == Running && r.matchers == [Fresh(CutAfter(n))] && r.held == [] && r.toClient == [] && r.limit.None?
    requires r.observer.reliable && description.tag == 84 && forall i :: 0 <= i < |rows| ==> rows[i].tag == 68
    ensures var t := Relayed(Step(r, ServerFrame(description)), RowInputs(rows));
            && Transparency.Frames(t.toClient) == [description] + (if |rows| < n then rows else rows[..n])
            && t.ending == (if |rows| < n || rows == [] then Running else RowsCut)
  {
    var armed := Step(r, ServerFrame(description));
    DescriptionFires(r, description, n);
    assert [CutAfter(n)][..0] == [];
    RowsUndisturbed(armed, rows, CutAfter(n));
    Truncation.ExactTruncation(r, description, RowInputs(rows), n);
    var t := Relayed(armed, RowInputs(rows));
    GivenSinceDescription(r, armed, t, description);
    CutAmongRows(rows, n, Truncation.Given(armed, t), t.ending == RowsCut);
  }

  lemma {:induction false} PrefixRows(rows: seq<Frame>, k: nat)
    requires k <= |rows| && forall i :: 0 <= i < |rows| ==> rows[i].tag == 68
    ensures Truncation.Rows(rows[..k]) == k
    decreases k
  {
    if k > 0 {
      PrefixRows(rows, k - 1);
      assert rows[..k][..k - 1] == rows[..k - 1];
    }
  }

  /** The client had nothing before the RowDescription. */
  lemma GivenSinceDescription(r: RelayState, armed: RelayState, t: RelayState, description: Frame)
    requires r.toClient == [] && armed.toClient == r.toClient + [Arrival(r.clock, description)] && armed.toClient <= t.toClient
    ensures Transparency.Frames(t.toClient) == [description] + Truncation.Given(armed, t)
  {
    var a := [Arrival(r.clock, description)];
    assert armed.toClient == a && t.toClient == a + t.toClient[1..];
    Transparency.FramesAppend(a, t.toClient[1..]);
  }

  /** Among rows alone the cut is at a row's place. */
  lemma CutAmongRows(rows: seq<Frame>, n: nat, given: seq<Frame>, cut: bool)
    requires forall i :: 0 <= i < |rows| ==> rows[i].tag == 68
    requires cut == (Truncation.Rows(rows) >= Truncation.Fatal(n))
    requires if cut then Truncation.CutAt(n, rows, given) else given == rows
    ensures given == (if |rows| < n then rows else rows[..n]) && cut == !(|rows| < n || rows == [])
  {
    PrefixRows(rows, |rows|);
    assert rows[..|rows|] == rows;
    if cut {
      assert given == rows[..|given|];
      PrefixRows(rows, |given|);
    }
  }
}
