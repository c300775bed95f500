/** The observer beside a conforming server: its cycles are the server's request groups, in order. */
module Pairing {
  import opened Events
  import opened Observer
  import opened Runs
  import opened Servers
  import Reliability
  import Speculation

  datatype World = World(observer: State, server: Server)

  /** One message seen by the proxy; every client message is passed on. */
  datatype Move = Ask(request: ClientMessage) | Reply(reply: ServerMessage)

  predicate May(w: World, x: Move) {
    match x
    case Ask(m) => MayAsk(w.server, m)
    case Reply(m) => MayReply(w.server, m)
  }

  function SeenAs(x: Move): Seen {
    match x
    case Ask(m) => FromClient(m, true)
    case Reply(m) => FromServer(m)
  }

  function Moved(w: World, x: Move): World {
    World(Advance(w.observer, SeenAs(x)),
          match x
          case Ask(m) => Take(w.server, Noted(w.observer, m))
          case Reply(m) => Give(w.server, m))
  }

  function Played(w: World, xs: seq<Move>): World {
    if xs == [] then w else Moved(Played(w, xs[..|xs| - 1]), xs[|xs| - 1])
  }

  /** Client and server keep to the protocol at every move. */
  predicate Lawful(w: World, xs: seq<Move>) {
    if xs == [] then true else Lawful(w, xs[..|xs| - 1]) && May(Played(w, xs[..|xs| - 1]), xs[|xs| - 1])
  }

  // ---- cycles and groups --------------------------------------------------

  function Executed(q: Request): seq<Statement> {
    if q.message.Execute? then [q.statement] else []
  }

  /** The statements of the Executes still to be answered. */
  function Statements(todo: seq<Request>): seq<Statement> {
    if todo == [] then []
    else Executed(todo[0]) + Statements(todo[1..])
  }

  function Mutations(todo: seq<Request>): seq<Mutation> {
    if todo == [] then [] else todo[0].mutations + Mutations(todo[1..])
  }

  /** The query of a simple group is the cycle's only statement, completed or not. */
  predicate FitsQuery(c: Cycle, g: Group) {
    |g.todo| == 1 && (c.statements == [g.todo[0].statement] || (c.statements == [] && c.last == g.todo[0].statement))
  }

  /** The cycle's statements are those of the Executes that wait for an answer, behind one for each empty
      Execute. */
  predicate FitsExecutes(c: Cycle, g: Group) {
    |c.statements| == g.empties + |Statements(g.todo)| && c.statements[g.empties..] == Statements(g.todo)
  }

  /** The cycle stands for the group, whose statements it holds unless the group has failed. */
  predicate Fits(c: Cycle, g: Group) {
    && c.extended == !g.simple && c.sealed == g.sealed
    && (g.simple ==> FitsQuery(c, g))
    && (!g.simple && !g.failed ==> FitsExecutes(c, g))
  }

  /** An EmptyQueryResponse retires nothing: the cycle holds exactly the statements still to be answered as
      long as no Execute of the group was empty, and never again once one was. */
  lemma EmptyExecutesShift(c: Cycle, g: Group)
    requires Fits(c, g) && !g.simple && !g.failed
    ensures c.statements == Statements(g.todo) <==> g.empties == 0
  {
  }

  /** A last group of nothing but Describes has no cycle yet; every other group has one. */
  predicate Paired(cs: seq<Cycle>, gs: seq<Group>) {
    && |cs| == |gs| - (if gs != [] && !gs[|gs| - 1].tracked then 1 else 0)
    && forall i :: 0 <= i < |cs| ==> Fits(cs[i], gs[i])
  }

  /** Likewise for the acknowledgements that are still to come. */
  predicate Awaits(cs: seq<Cycle>, gs: seq<Group>) {
    forall i :: 0 <= i < |cs| && i < |gs| && !gs[i].failed ==> cs[i].mutations == Mutations(gs[i].todo)
  }

  lemma {:induction false} StatementsAppend(a: seq<Request>, q: Request)
    ensures Statements(a + [q]) == Statements(a) + Executed(q)
    decreases |a|
  {
    if a == [] {
      assert a + [q] == [q] && [q][1..] == [];
      assert Executed(q) + [] == [] + Executed(q);
    } else {
      assert (a + [q])[1..] == a[1..] + [q];
      StatementsAppend(a[1..], q);
      Associate(Executed(a[0]), Statements(a[1..]), Executed(q));
    }
  }

  lemma Associate<T>(a: seq<T>, b: seq<T>, c: seq<T>)
    ensures a + (b + c) == (a + b) + c
  {
  }

  lemma {:induction false} MutationsAppend(a: seq<Request>, q: Request)
    ensures Mutations(a + [q]) == Mutations(a) + q.mutations
    decreases |a|
  {
    if a == [] {
      assert a + [q] == [q] && [q][1..] == [];
    } else {
      assert (a + [q])[1..] == a[1..] + [q];
      MutationsAppend(a[1..], q);
      Associate(a[0].mutations, Mutations(a[1..]), q.mutations);
    }
  }

  /** The cycle a request joins, beside the group it joins. */
  lemma ExtendFits(c: Cycle, s: State, m: ClientMessage, g: Group)
    requires Fits(c, g) && !g.sealed && !g.simple && Opens(m) && !m.Query?
    ensures Fits(Extend(c, s, m), Add(g, Noted(s, m)))
    ensures !g.failed && c.mutations == Mutations(g.todo) ==>
              Extend(c, s, m).mutations == Mutations(Add(g, Noted(s, m)).todo)
  {
    StatementsAppend(g.todo, Noted(s, m));
    MutationsAppend(g.todo, Noted(s, m));
  }

  lemma QueryFits(s: State, m: ClientMessage)
    requires m.Query?
    ensures var c := Extend(NewCycle(s.nextCycle + 1, false), s, m);
            var g := Group(true, true, true, false, [Noted(s, m)], 0);
            Fits(c, g) && c.mutations == Mutations(g.todo)
  {
    MutationsAppend([], Noted(s, m));
    assert [] + [Noted(s, m)] == [Noted(s, m)];
  }

  // ---- a client message -----------------------------------------------------

  lemma OlderGroups(s: State, m: ClientMessage, v: Server)
    requires Orderly(v) && MayAsk(v, m) && Opens(m) && Paired(s.cycles, v.groups)
    ensures |Older(s, m)| == if Open(v) then |v.groups| - 1 else |v.groups|
    ensures Older(s, m) == s.cycles[..|Older(s, m)|]
  {
    if v.groups != [] {
      assert WellFormed(v.groups[|v.groups| - 1]);
    }
  }

  /** The group a message belongs to once it has it. */
  function JoinedGroup(v: Server, q: Request): Group {
    if q.message.Query? then Group(true, true, true, false, [q], 0) else Add(Latest(v), q)
  }

  lemma TakeJoins(s: State, m: ClientMessage, v: Server)
    requires Orderly(v) && MayAsk(v, m) && Opens(m) && Paired(s.cycles, v.groups)
    ensures var n := |Older(s, m)|;
            n <= |v.groups| && Take(v, Noted(s, m)).groups == v.groups[..n] + [JoinedGroup(v, Noted(s, m))]
  {
    OlderGroups(s, m, v);
    assert v.groups[..|v.groups|] == v.groups;
  }

  /** The cycle that a message joins stands for the group it joins. */
  lemma BaseFits(s: State, m: ClientMessage, v: Server)
    requires Orderly(v) && MayAsk(v, m) && Opens(m) && !m.Query? && Paired(s.cycles, v.groups)
    ensures var c := if OpensNew(s, m) then NewCycle(s.nextCycle + 1, true) else Newest(s);
            var g := Latest(v);
            && Fits(c, g) && !g.sealed && !g.simple
            && (Awaits(s.cycles, v.groups) && !g.failed ==> c.mutations == Mutations(g.todo))
  {
    if v.groups != [] {
      assert WellFormed(v.groups[|v.groups| - 1]);
    }
    if !Latest(v).tracked {
      UntrackedIsBlank(Latest(v));
    }
  }

  /** Once both have the message, the cycle stands for the group. */
  lemma JoinedFits(s: State, m: ClientMessage, v: Server)
    requires Orderly(v) && MayAsk(v, m) && Opens(m) && Paired(s.cycles, v.groups)
    ensures var g := JoinedGroup(v, Noted(s, m));
            && Fits(Joined(s, m), g) && g.tracked
            && (Awaits(s.cycles, v.groups) && !g.failed ==> Joined(s, m).mutations == Mutations(g.todo))
  {
    if m.Query? {
      QueryFits(s, m);
    } else {
      BaseFits(s, m, v);
      ExtendFits(if OpensNew(s, m) then NewCycle(s.nextCycle + 1, true) else Newest(s), s, m, Latest(v));
    }
  }

  /** Describes leave no trace in a cycle. */
  lemma {:induction false} DescribesAreBlank(todo: seq<Request>)
    requires forall j :: 0 <= j < |todo| ==> todo[j].message.Describe? && WellNoted(todo[j])
    ensures Statements(todo) == [] && Mutations(todo) == []
  {
    if todo != [] {
      DescribesAreBlank(todo[1..]);
    }
  }

  lemma UntrackedIsBlank(g: Group)
    requires WellFormed(g) && !g.tracked
    ensures Statements(g.todo) == [] && Mutations(g.todo) == [] && !g.sealed && !g.simple
  {
    DescribesAreBlank(g.todo);
  }

  lemma PairedJoins(cs: seq<Cycle>, gs: seq<Group>, n: nat, c: Cycle, g: Group)
    requires Paired(cs, gs) && n <= |cs| && n <= |gs|
    requires Fits(c, g) && g.tracked
    ensures Paired(cs[..n] + [c], gs[..n] + [g])
    ensures Awaits(cs, gs) && (!g.failed ==> c.mutations == Mutations(g.todo)) ==> Awaits(cs[..n] + [c], gs[..n] + [g])
  {
  }

  lemma AskPaired(s: State, m: ClientMessage, v: Server)
    requires Orderly(v) && MayAsk(v, m) && Paired(s.cycles, v.groups)
    ensures Paired(Received(s, m).cycles, Take(v, Noted(s, m)).groups)
    ensures Awaits(s.cycles, v.groups) ==> Awaits(Received(s, m).cycles, Take(v, Noted(s, m)).groups)
  {
    if Opens(m) {
      var n := |Older(s, m)|;
      OlderGroups(s, m, v);
      TakeJoins(s, m, v);
      JoinedFits(s, m, v);
      var c := CycleJoined(s, m);
      PairedJoins(s.cycles, v.groups, n, c, JoinedGroup(v, Noted(s, m)));
    } else if m.Describe? {
      DescribePaired(s.cycles, v, Noted(s, m));
    }
  }

  lemma CycleJoined(s: State, m: ClientMessage) returns (c: Cycle)
    requires Opens(m) && Older(s, m) == s.cycles[..|Older(s, m)|]
    ensures Received(s, m).cycles == s.cycles[..|Older(s, m)|] + [c]
    ensures c.(epochAllocated := Joined(s, m).epochAllocated) == Joined(s, m)
  {
    ClientCycles(s, m);
    c := Received(s, m).cycles[|Older(s, m)|];
  }

  lemma DescribePaired(cs: seq<Cycle>, v: Server, q: Request)
    requires Orderly(v) && Paired(cs, v.groups) && q.message.Describe? && WellNoted(q)
    ensures Paired(cs, Take(v, q).groups)
    ensures Awaits(cs, v.groups) ==> Awaits(cs, Take(v, q).groups)
  {
    var gs := v.groups;
    if Open(v) {
      assert WellFormed(gs[|gs| - 1]);
      DescribeFits(gs[|gs| - 1], q);
      PairedLast(cs, gs, Add(gs[|gs| - 1], q));
    } else {
      assert gs != [] ==> WellFormed(gs[|gs| - 1]);
    }
  }

  lemma PairedLast(cs: seq<Cycle>, gs: seq<Group>, g: Group)
    requires Paired(cs, gs) && gs != [] && g.tracked == gs[|gs| - 1].tracked && g.failed == gs[|gs| - 1].failed
    requires forall c :: Fits(c, gs[|gs| - 1]) ==> Fits(c, g)
    requires Mutations(g.todo) == Mutations(gs[|gs| - 1].todo)
    ensures var gs' := gs[..|gs| - 1] + [g]; Paired(cs, gs') && (Awaits(cs, gs) ==> Awaits(cs, gs'))
  {
  }

  lemma DescribeFits(g: Group, q: Request)
    requires q.message.Describe? && WellNoted(q) && !g.sealed && !g.simple
    ensures Add(g, q).tracked == g.tracked && Add(g, q).failed == g.failed
    ensures Mutations(Add(g, q).todo) == Mutations(g.todo)
    ensures forall c :: Fits(c, g) ==> Fits(c, Add(g, q))
  {
    StatementsAppend(g.todo, q);
    MutationsAppend(g.todo, q);
    assert Mutations(g.todo) + [] == Mutations(g.todo) && Statements(g.todo) + [] == Statements(g.todo);
  }

  // ---- a server message -----------------------------------------------------

  /** An answered Execute leaves the group, and a statement leaves the cycle unless the Execute was empty. */
  lemma ExecuteFits(c: Cycle, g: Group, m: ServerMessage)
    requires FitsExecutes(c, g) && g.todo != [] && g.todo[0].message.Execute? && !g.simple
    requires m.CommandComplete? || m.PortalSuspended? || m.EmptyQuery?
    ensures FitsExecutes(Finish(Answer(c, m), m), Progress(g, m))
  {
    var c', g' := Finish(Answer(c, m), m), Progress(g, m);
    assert Statements(g.todo) == [g.todo[0].statement] + Statements(g.todo[1..]);
    assert Statements(g.todo)[1..] == Statements(g.todo[1..]);
    assert c.statements[g.empties..][1..] == c.statements[g.empties + 1..];
    assert !m.EmptyQuery? ==> c'.statements[g'.empties..] == c.statements[g.empties + 1..];
  }

  lemma QueryStillFits(c: Cycle, g: Group, m: ServerMessage)
    requires FitsQuery(c, g) && g.simple && g.todo[0].message.Query? && Answers(g.todo[0].message, m) && !m.Ready?
    ensures FitsQuery(Finish(Answer(c, m), m), Progress(g, m))
  {
  }

  /** A reply takes from the cycle what it takes from the group. */
  lemma ReplyFits(c: Cycle, g: Group, m: ServerMessage)
    requires Fits(c, g) && WellFormed(g) && g.todo != [] && Answers(g.todo[0].message, m) && !m.Ready?
    ensures Fits(Finish(Answer(c, m), m), Progress(g, m))
  {
    if g.simple {
      QueryStillFits(c, g, m);
    } else if m.CommandComplete? || m.PortalSuspended? || m.EmptyQuery? {
      ExecuteFits(c, g, m);
    } else if !m.ErrorResponse? && !m.DataRow? {
      assert Statements(g.todo) == Statements(g.todo[1..]);
    }
  }

  lemma ReplyAcknowledges(c: Cycle, g: Group, m: ServerMessage)
    requires WellFormed(g) && g.todo != [] && Answers(g.todo[0].message, m) && !m.Ready?
    requires c.mutations == Mutations(g.todo) && (m.BindComplete? ==> g.todo[0].mutations != []) && !Progress(g, m).failed
    ensures Finish(Answer(c, m), m).mutations == Mutations(Progress(g, m).todo)
  {
    if g.simple || g.todo[0].message.Sync? {
      assert g.todo[1..] == [];
    }
  }

  lemma AsyncFits(c: Cycle, m: ServerMessage)
    requires Async(m)
    ensures Finish(Answer(c, m), m) == c
  {
  }

  lemma PairedReplaces(cs: seq<Cycle>, gs: seq<Group>, c: Cycle, g: Group)
    requires Paired(cs, gs) && cs != [] && gs != [] && Fits(c, g) && g.tracked == gs[0].tracked
    ensures Paired([c] + cs[1..], [g] + gs[1..])
    ensures Awaits(cs, gs) && (!g.failed ==> c.mutations == Mutations(g.todo)) ==> Awaits([c] + cs[1..], [g] + gs[1..])
  {
  }

  /** The group being answered has no cycle only if it is the only group, and then there is no cycle at all. */
  lemma FrontTracked(cs: seq<Cycle>, v: Server)
    requires Orderly(v) && Paired(cs, v.groups) && v.groups != []
    ensures v.groups[0].tracked <==> cs != []
    ensures !v.groups[0].tracked ==> |v.groups| == 1
  {
    assert WellFormed(v.groups[0]);
  }

  /** Every Bind on its way named a statement the observer knew. */
  predicate BindsKnown(gs: seq<Group>) {
    forall i, j :: 0 <= i < |gs| && 0 <= j < |gs[i].todo| && gs[i].todo[j].message.Bind? ==> gs[i].todo[j].mutations != []
  }

  lemma ReplyPaired(s: State, m: ServerMessage, v: Server)
    requires Orderly(v) && MayReply(v, m) && Paired(s.cycles, v.groups)
    ensures Paired(After(Before(s, m), m).cycles, Give(v, m).groups)
    ensures Awaits(s.cycles, v.groups) && BindsKnown(v.groups) ==> Awaits(After(Before(s, m), m).cycles, Give(v, m).groups)
  {
    ServerCycles(s, m);
    if Async(m) {
      if s.cycles != [] {
        AsyncFits(s.cycles[0], m);
        assert [s.cycles[0]] + s.cycles[1..] == s.cycles;
      }
    } else if !v.starting {
      if m.Ready? {
        ReadyPaired(s.cycles, v);
      } else {
        ProgressPaired(s.cycles, v, m);
      }
    }
  }

  lemma ProgressPaired(cs: seq<Cycle>, v: Server, m: ServerMessage)
    requires Orderly(v) && Busy(v) && Answers(v.groups[0].todo[0].message, m) && !m.Ready? && Paired(cs, v.groups)
    ensures var cs' := if cs == [] then [] else [Finish(Answer(cs[0], m), m)] + cs[1..];
            var gs' := [Progress(v.groups[0], m)] + v.groups[1..];
            Paired(cs', gs') && (Awaits(cs, v.groups) && BindsKnown(v.groups) ==> Awaits(cs', gs'))
  {
    FrontTracked(cs, v);
    ProgressWellFormed(v.groups[0], m);
    if cs != [] {
      var g' := Progress(v.groups[0], m);
      ReplyFits(cs[0], v.groups[0], m);
      if Awaits(cs, v.groups) && BindsKnown(v.groups) && !g'.failed {
        ReplyAcknowledges(cs[0], v.groups[0], m);
      }
      PairedReplaces(cs, v.groups, Finish(Answer(cs[0], m), m), Progress(v.groups[0], m));
    }
  }

  lemma ReadyPaired(cs: seq<Cycle>, v: Server)
    requires Orderly(v) && Busy(v) && Answers(v.groups[0].todo[0].message, Ready(Idle)) && Paired(cs, v.groups)
    ensures cs != [] && Paired(cs[1..], v.groups[1..])
    ensures Awaits(cs, v.groups) ==> Awaits(cs[1..], v.groups[1..])
  {
    assert WellFormed(v.groups[0]);
  }

  // ---- whole runs -----------------------------------------------------------

  function Started(id: nat, startup: Startup): World {
    World(Initial(id, startup), STARTED)
  }

  predicate InStep(w: World) {
    Orderly(w.server) && Paired(w.observer.cycles, w.server.groups)
  }

  lemma InStepMove(w: World, x: Move)
    requires InStep(w) && May(w, x)
    ensures InStep(Moved(w, x))
  {
    StepShape(w.observer, SeenAs(x));
    match x {
      case Ask(m) =>
        NotedWell(w.observer, m);
        TakeOrderly(w.server, Noted(w.observer, m));
        AskPaired(w.observer, m, w.server);
      case Reply(m) =>
        GiveOrderly(w.server, m);
        ReplyPaired(w.observer, m, w.server);
    }
  }

  /** On every run of a client and a server that keep to the protocol, errors included, the observer's cycles
      are the server's unanswered groups, oldest first. */
  lemma {:induction false} CyclesAreGroups(id: nat, startup: Startup, xs: seq<Move>)
    requires Lawful(Started(id, startup), xs)
    ensures InStep(Played(Started(id, startup), xs))
  {
    if xs != [] {
      CyclesAreGroups(id, startup, xs[..|xs| - 1]);
      InStepMove(Played(Started(id, startup), xs[..|xs| - 1]), xs[|xs| - 1]);
    }
  }

  /** What the front of the queues says when the server answers a request. */
  lemma FrontAnswers(w: World, m: ServerMessage)
    requires InStep(w) && MayReply(w.server, m) && !Async(m) && !w.server.starting
    ensures var cs, g := w.observer.cycles, w.server.groups[0];
            && (cs != [] <==> g.tracked) && (cs != [] ==> Fits(cs[0], g))
            && (forall i :: 0 <= i < |cs| - 1 ==> cs[i].sealed)
            && (m.Ready? ==> cs != [] && cs[0].sealed)
  {
    FrontTracked(w.observer.cycles, w.server);
    assert WellFormed(w.server.groups[0]);
  }

  /** The event names the cycle and the statement it will retire. */
  predicate IsAbout(e: Event, c: Cycle) {
    e.cycle == c.id && e.kind == Subject(c, Front).kind && e.fingerprint == Subject(c, Front).fingerprint
  }

  lemma CompletionAnswered(c: Cycle, g: Group, m: ServerMessage)
    requires WellFormed(g) && g.todo != [] && Answers(g.todo[0].message, m) && Fits(c, g)
    requires m.CommandComplete? || m.PortalSuspended?
    ensures if g.simple then g.todo[0].message.Query? else g.todo[0].message.Execute?
    ensures !g.simple ==> g.empties < |c.statements| && c.statements[g.empties] == g.todo[0].statement
    ensures g.simple || g.empties == 0 ==> Subject(c, Front) == g.todo[0].statement
  {
    if !g.simple {
      assert Statements(g.todo)[0] == g.todo[0].statement;
      assert c.statements[g.empties..][0] == c.statements[g.empties];
    }
  }

  /** FIFO pairing. Whenever the server answers a request, the front cycle is the group being answered, and
      only the newest cycle may still be open. A CommandComplete of a simple query leaves that query as the last
      statement. A CommandComplete or PortalSuspended of an Execute retires the statement at the head of a
      queue in which the Execute's own comes after one for each empty Execute of the group; with none, its
      own. The events are about the statement retired. */
  lemma RepliesMeetTheirRequest(id: nat, startup: Startup, xs: seq<Move>, m: ServerMessage)
    requires Lawful(Started(id, startup), xs + [Reply(m)]) && !Async(m)
    requires !Played(Started(id, startup), xs).server.starting
    ensures Meets(Played(Started(id, startup), xs), m)
  {
    assert (xs + [Reply(m)])[..|xs|] == xs;
    CyclesAreGroups(id, startup, xs);
    ReplyMeets(Played(Started(id, startup), xs), m);
  }

  /** The reply concerns the front cycle in the way it answers the front group. */
  predicate Meets(w: World, m: ServerMessage) {
    var cs, gs := w.observer.cycles, w.server.groups;
    && gs != [] && gs[0].todo != []
    && (cs != [] <==> gs[0].tracked) && (cs != [] ==> Fits(cs[0], gs[0]))
    && (forall i :: 0 <= i < |cs| - 1 ==> cs[i].sealed)
    && (m.CommandComplete? || m.PortalSuspended? ==> Retires(w.observer, gs[0], m))
  }

  predicate Retires(s: State, g: Group, m: ServerMessage)
    requires g.todo != []
  {
    var q := g.todo[0];
    && (if g.simple then q.message.Query? else q.message.Execute?)
    && s.cycles != []
    && (!g.simple ==> g.empties < |s.cycles[0].statements| && s.cycles[0].statements[g.empties] == q.statement)
    && (g.simple || g.empties == 0 ==> Subject(s.cycles[0], Front) == q.statement)
    && (var cs' := Left(s, FromServer(m)).cycles; cs' != [] && cs'[0].last == Subject(s.cycles[0], Front))
    && forall i :: 0 <= i < |BackendEvents(s, m)| ==> IsAbout(BackendEvents(s, m)[i], s.cycles[0])
  }

  lemma ReplyMeets(w: World, m: ServerMessage)
    requires InStep(w) && MayReply(w.server, m) && !Async(m) && !w.server.starting
    ensures Meets(w, m)
  {
    FrontAnswers(w, m);
    if m.CommandComplete? || m.PortalSuspended? {
      CompletionAnswered(w.observer.cycles[0], w.server.groups[0], m);
      RetiredIsSubject(w.observer, m);
    }
  }

  lemma RetiredIsSubject(s: State, m: ServerMessage)
    requires s.cycles != [] && (m.CommandComplete? || m.PortalSuspended?)
    ensures var cs' := Left(s, FromServer(m)).cycles; cs' != [] && cs'[0].last == Subject(s.cycles[0], Front)
    ensures forall i :: 0 <= i < |BackendEvents(s, m)| ==> IsAbout(BackendEvents(s, m)[i], s.cycles[0])
  {
    StepShape(s, FromServer(m));
    RetiredState(s, m);
  }

  lemma RetiredState(s: State, m: ServerMessage)
    requires s.cycles != [] && (m.CommandComplete? || m.PortalSuspended?)
    ensures Before(s, m).cycles[0] == s.cycles[0]
    ensures After(Before(s, m), m).cycles[0].last == Subject(s.cycles[0], Front)
  {
  }

  // ---- no false alarm ---------------------------------------------------------

  /** The Bind names a statement that the observer knows at that moment. */
  predicate Informed(s: State, x: Move) {
    x.Ask? && x.request.Bind? ==> x.request.source in s.prepared
  }

  predicate AllInformed(w: World, xs: seq<Move>) {
    if xs == [] then true
    else AllInformed(w, xs[..|xs| - 1]) && Informed(Played(w, xs[..|xs| - 1]).observer, xs[|xs| - 1])
  }

  predicate Trusted(w: World) {
    InStep(w) && Awaits(w.observer.cycles, w.server.groups) && BindsKnown(w.server.groups)
  }

  lemma TakeBindsKnown(v: Server, q: Request)
    requires BindsKnown(v.groups) && (q.message.Bind? ==> q.mutations != [])
    ensures BindsKnown(Take(v, q).groups)
  {
  }

  lemma GiveBindsKnown(v: Server, m: ServerMessage)
    requires BindsKnown(v.groups)
    ensures BindsKnown(Give(v, m).groups)
  {
    if !Async(m) && !v.starting && v.groups != [] && !m.Ready? {
      var n := ProgressDrops(v.groups[0], m);
      var gs' := Give(v, m).groups;
      forall i, j | 0 <= i < |gs'| && 0 <= j < |gs'[i].todo| && gs'[i].todo[j].message.Bind?
        ensures gs'[i].todo[j].mutations != []
      {
        if i == 0 {
          assert gs'[0].todo[j] == v.groups[0].todo[n + j];
        }
      }
    }
  }

  lemma TrustedMove(w: World, x: Move)
    requires Trusted(w) && May(w, x) && Informed(w.observer, x)
    ensures Trusted(Moved(w, x))
  {
    InStepMove(w, x);
    StepShape(w.observer, SeenAs(x));
    match x {
      case Ask(m) =>
        AskPaired(w.observer, m, w.server);
        TakeBindsKnown(w.server, Noted(w.observer, m));
      case Reply(m) =>
        ReplyPaired(w.observer, m, w.server);
        GiveBindsKnown(w.server, m);
    }
  }

  /** Every acknowledgement is the one the observer waits for. */
  lemma NoMismatch(w: World, x: Move)
    requires Trusted(w) && May(w, x)
    ensures !Reliability.Mismatch(w.observer, SeenAs(x))
  {
    if x.Reply? && Acknowledges(x.reply) {
      FrontTracked(w.observer.cycles, w.server);
      AcknowledgementExpected(w.observer.cycles, w.server.groups[0], x.reply);
    }
  }

  lemma AcknowledgementExpected(cs: seq<Cycle>, g: Group, m: ServerMessage)
    requires WellFormed(g) && g.todo != [] && Answers(g.todo[0].message, m) && Acknowledges(m)
    requires g.tracked ==> cs != []
    requires cs != [] && !g.failed ==> cs[0].mutations == Mutations(g.todo)
    requires m.BindComplete? ==> g.todo[0].mutations != []
    ensures cs != [] && cs[0].mutations != [] && Matches(cs[0].mutations[0], m)
  {
    assert g.todo[0].mutations != [];
    assert Mutations(g.todo)[0] == g.todo[0].mutations[0];
  }

  /** No false alarm: with a conforming server the observer never loses trust, however deeply requests are
      pipelined and whatever errors occur, as long as each Bind names a statement known to it when sent. */
  lemma {:induction false} NoFalseAlarm(id: nat, startup: Startup, xs: seq<Move>)
    requires Lawful(Started(id, startup), xs) && AllInformed(Started(id, startup), xs)
    ensures Trusted(Played(Started(id, startup), xs)) && Played(Started(id, startup), xs).observer.reliable
  {
    if xs != [] {
      var w, x := Played(Started(id, startup), xs[..|xs| - 1]), xs[|xs| - 1];
      NoFalseAlarm(id, startup, xs[..|xs| - 1]);
      TrustedMove(w, x);
      NoMismatch(w, x);
      Reliability.ReliableStep(w.observer, SeenAs(x));
    }
  }

  // ---- the names it assumes -----------------------------------------------------

  /** No error since the observer's queue last drained. */
  predicate Calm(w: World, xs: seq<Move>) {
    if xs == [] then true
    else
      var t, x := Played(w, xs[..|xs| - 1]), xs[|xs| - 1];
      Reliability.Drains(t.observer, SeenAs(x)) || (Calm(w, xs[..|xs| - 1]) && x != Reply(ErrorResponse))
  }

  predicate NoneFailed(gs: seq<Group>) {
    forall i :: 0 <= i < |gs| ==> !gs[i].failed
  }

  lemma NoneFailedMove(w: World, x: Move)
    requires InStep(w) && May(w, x)
    requires Reliability.Drains(w.observer, SeenAs(x)) || (NoneFailed(w.server.groups) && x != Reply(ErrorResponse))
    ensures NoneFailed(Moved(w, x).server.groups)
  {
    if x.Reply? {
      NoneFailedGive(w, x.reply);
    }
  }

  lemma NoneFailedGive(w: World, m: ServerMessage)
    requires InStep(w) && MayReply(w.server, m)
    requires Reliability.Drains(w.observer, FromServer(m)) || (NoneFailed(w.server.groups) && !m.ErrorResponse?)
    ensures NoneFailed(Give(w.server, m).groups)
  {
  }

  /** A conforming server acknowledges everything before the ReadyForQuery of the group. */
  lemma ReadyAfterAcknowledgements(w: World, x: Move)
    requires Trusted(w) && May(w, x) && NoneFailed(w.server.groups)
    ensures Speculation.AcknowledgedInTime(w.observer, SeenAs(x))
  {
    if x.Reply? && x.reply.Ready? && !w.server.starting {
      LastIsAcknowledged(w.server.groups[0]);
      FrontTracked(w.observer.cycles, w.server);
    }
  }

  lemma LastIsAcknowledged(g: Group)
    requires WellFormed(g) && g.todo != [] && (g.todo[0].message.Query? || g.todo[0].message.Sync?)
    ensures Mutations(g.todo) == []
  {
    ReadyIsLast(g);
    assert g.todo[1..] == [] && WellNoted(g.todo[0]);
  }

  lemma RefinesMove(w: World, x: Move)
    requires Trusted(w) && May(w, x)
    requires Reliability.Drains(w.observer, SeenAs(x)) ||
             (NoneFailed(w.server.groups) && Speculation.Refines(w.observer) && x != Reply(ErrorResponse))
    ensures Speculation.Refines(Moved(w, x).observer)
  {
    if !Reliability.Drains(w.observer, SeenAs(x)) {
      NoMismatch(w, x);
      ReadyAfterAcknowledgements(w, x);
    }
    Speculation.RefinesStep(w.observer, SeenAs(x));
  }

  /** With a conforming server, and no error since the queue last drained, the prepared statements assumed by
      the observer are those the server has confirmed with everything unacknowledged applied in order. */
  lemma {:induction false} ConformingServerConfirms(id: nat, startup: Startup, xs: seq<Move>)
    requires Lawful(Started(id, startup), xs) && AllInformed(Started(id, startup), xs) && Calm(Started(id, startup), xs)
    ensures NoneFailed(Played(Started(id, startup), xs).server.groups)
    ensures Speculation.Refines(Played(Started(id, startup), xs).observer)
  {
    if xs != [] {
      var front, x := xs[..|xs| - 1], xs[|xs| - 1];
      var w := Played(Started(id, startup), front);
      NoFalseAlarm(id, startup, front);
      if !Reliability.Drains(w.observer, SeenAs(x)) {
        ConformingServerConfirms(id, startup, front);
      }
      NoneFailedMove(w, x);
      RefinesMove(w, x);
    }
  }
}
