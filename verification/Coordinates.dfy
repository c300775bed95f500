/** Which events are identified by their name, cycle and statement number within a whole run. */
module Coordinates {
  import opened Events
  import opened Observer
  import opened Runs

  /** Events made when the client asks for something to run. */
  predicate AtRequest(n: EventName) {
    n.QueryReceived? || n.QueryForwarded? || n.FrontendExecute? || n.ExecutionStarted? ||
    n.BeginRequested? || n.CommitRequested? || n.RollbackRequested?
  }

  /** Events made at a ReadyForQuery. */
  predicate AtReady(n: EventName) {
    n.BackendReady? || n.TransactionFailed? || n.CommitCompleted? || n.RollbackCompleted? ||
    n.ImplicitCompleted? || n.ConnectionReady?
  }

  /** The events whose coordinate names one moment of the run. */
  predicate Pinpoints(e: Event) {
    AtRequest(e.name) || e.name.FrontendSync? || (AtReady(e.name) && e.cycle != 0)
  }

  predicate SamePoint(e: Event, f: Event) {
    e.name == f.name && e.cycle == f.cycle && e.statementIndex == f.statementIndex
  }

  /** The event lies behind everything the state can still produce. */
  predicate Past(s: State, e: Event) {
    && (AtRequest(e.name) ==>
          e.cycle <= s.nextCycle &&
          (s.cycles != [] && e.cycle == s.nextCycle ==> e.statementIndex <= Newest(s).executions))
    && (e.name.FrontendSync? ==>
          e.cycle <= s.nextCycle && (s.cycles != [] && e.cycle == s.nextCycle ==> Newest(s).sealed))
    && (AtReady(e.name) ==> e.cycle + |s.cycles| <= s.nextCycle)
  }

  /** How far a client message moves the frontier. */
  lemma ClientFrontier(s: State, m: ClientMessage)
    requires Numbered(s) && Opens(m)
    ensures var s' := Received(s, m);
            && s'.cycles != [] && Newest(s').id == s'.nextCycle
            && (s'.nextCycle == s.nextCycle + 1 ||
                (s'.nextCycle == s.nextCycle && s.cycles != [] && !Newest(s).sealed && |s'.cycles| == |s.cycles| &&
                 (if Executes(m) then Newest(s').executions == Newest(s).executions + 1
                  else Newest(s').executions == Newest(s).executions)))
            && (Executes(m) ==> 1 <= Newest(s').executions)
            && (m.Sync? ==> Newest(s').sealed)
            && s'.nextCycle - |s'.cycles| == s.nextCycle - |s.cycles|
  {
    ClientCycles(s, m);
    NumberedClient(s, m);
  }

  lemma ServerFrontier(s: State, m: ServerMessage)
    requires Numbered(s)
    ensures var s' := After(Before(s, m), m);
            && s'.nextCycle == s.nextCycle && |s'.cycles| <= |s.cycles|
            && (s'.cycles != [] ==> Newest(s').executions == Newest(s).executions && Newest(s').sealed == Newest(s).sealed)
  {
    NumberedServer(s, m);
  }

  lemma PastStaysPast(s: State, x: Seen, e: Event)
    requires Numbered(s) && Past(s, e)
    ensures Past(Left(s, x), e)
  {
    match x {
      case FromClient(m, _) => if Opens(m) { ClientFrontier(s, m); }
      case FromServer(m) => ServerFrontier(s, m);
    }
  }

  lemma ClientNamesPoint(s: State, x: Seen, j: nat)
    requires x.FromClient? && j < |NamesOf(s, x)|
    ensures Opens(x.request)
    ensures if Executes(x.request) then AtRequest(NamesOf(s, x)[j]) else x.request.Sync? && NamesOf(s, x)[j].FrontendSync?
    ensures !AtReady(NamesOf(s, x)[j])
  {
  }

  lemma ServerNamesPoint(s: State, m: ServerMessage, j: nat)
    requires j < |ServerNames(s, m)|
    ensures !AtRequest(ServerNames(s, m)[j]) && !ServerNames(s, m)[j].FrontendSync?
    ensures AtReady(ServerNames(s, m)[j]) ==> m.Ready?
  {
  }

  /** What a step announces is past once the step is done, and was not past before. */
  lemma NewPoint(s: State, x: Seen, j: nat)
    requires Numbered(s) && j < |EventsOf(s, x)|
    ensures Past(Left(s, x), EventsOf(s, x)[j])
    ensures Pinpoints(EventsOf(s, x)[j]) ==> !Past(s, EventsOf(s, x)[j])
  {
    StepShape(s, x);
    var e := EventsOf(s, x)[j];
    match x {
      case FromClient(m, _) =>
        ClientNamesPoint(s, x, j);
        ClientFrontier(s, m);
      case FromServer(m) =>
        ServerNamesPoint(Before(s, m), m, j);
        NumberedServer(s, m);
    }
  }

  predicate Distinct<T(==)>(xs: seq<T>) {
    forall i, j :: 0 <= i < j < |xs| ==> xs[i] != xs[j]
  }

  lemma NamesDistinct(s: State, x: Seen)
    ensures Distinct(NamesOf(s, x))
  {
    match x {
      case FromClient(m, _) => ClientNamesDistinct(s, m);
      case FromServer(m) => ServerNamesDistinct(Before(s, m), m);
    }
  }

  lemma ClientNamesDistinct(s: State, m: ClientMessage)
    ensures Distinct(ClientNames(s, m)) && QueryForwarded !in ClientNames(s, m)
  {
  }

  lemma ServerNamesDistinct(s: State, m: ServerMessage)
    ensures Distinct(ServerNames(s, m))
  {
  }

  predicate AllPast(s: State, tr: seq<Event>) {
    forall i :: 0 <= i < |tr| ==> Past(s, tr[i])
  }

  predicate PointsUnique(tr: seq<Event>) {
    forall i, j :: 0 <= i < j < |tr| && Pinpoints(tr[j]) ==> !SamePoint(tr[i], tr[j])
  }

  lemma SamePointIsPast(s: State, e: Event, f: Event)
    requires SamePoint(e, f) && Past(s, e)
    ensures Past(s, f)
  {
  }

  lemma PointsExtend(s: State, tr: seq<Event>, es: seq<Event>, names: seq<EventName>)
    requires AllPast(s, tr) && PointsUnique(tr)
    requires |es| == |names| && Distinct(names) && forall j :: 0 <= j < |es| ==> es[j].name == names[j]
    requires forall j :: 0 <= j < |es| && Pinpoints(es[j]) ==> !Past(s, es[j])
    ensures PointsUnique(tr + es)
  {
    var all := tr + es;
    forall i, j | 0 <= i < j < |all| && Pinpoints(all[j])
      ensures !SamePoint(all[i], all[j])
    {
      if j >= |tr| {
        if i < |tr| {
          assert !Past(s, es[j - |tr|]) && Past(s, tr[i]);
          if SamePoint(tr[i], es[j - |tr|]) {
            SamePointIsPast(s, tr[i], es[j - |tr|]);
          }
        } else {
          assert names[i - |tr|] != names[j - |tr|];
        }
      }
    }
  }

  lemma PastIgnoresCounters(s: State, t: State, e: Event)
    requires SameButCounters(s, t)
    ensures Past(s, e) == Past(t, e)
  {
  }

  lemma PointsStep(s: State, x: Seen, tr: seq<Event>)
    requires Numbered(s) && AllPast(s, tr) && PointsUnique(tr)
    ensures AllPast(Advance(s, x), tr + EventsOf(s, x)) && PointsUnique(tr + EventsOf(s, x))
  {
    var es := EventsOf(s, x);
    StepShape(s, x);
    NamesDistinct(s, x);
    forall j | 0 <= j < |es|
      ensures Past(Left(s, x), es[j]) && (Pinpoints(es[j]) ==> !Past(s, es[j]))
    {
      NewPoint(s, x, j);
    }
    PointsExtend(s, tr, es, NamesOf(s, x));
    forall i | 0 <= i < |tr + es|
      ensures Past(Advance(s, x), (tr + es)[i])
    {
      if i < |tr| {
        PastStaysPast(s, x, tr[i]);
      }
      PastIgnoresCounters(Advance(s, x), Left(s, x), (tr + es)[i]);
    }
  }

  /** Cycle numbers and execution counts make these coordinates unique in every run. */
  lemma {:induction false} PointsAreUnique(s: State, xs: seq<Seen>)
    requires s.cycles == []
    ensures Numbered(Run(s, xs)) && AllPast(Run(s, xs), History(s, xs)) && PointsUnique(History(s, xs))
  {
    if xs != [] {
      var front := xs[..|xs| - 1];
      PointsAreUnique(s, front);
      NumberedStep(Run(s, front), xs[|xs| - 1]);
      PointsStep(Run(s, front), xs[|xs| - 1], History(s, front));
    }
  }
}
