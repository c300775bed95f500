/** Where the guarantees end: for each assumption made elsewhere, what happens without it and exactly when. */
module Limits {
  import opened Base
  import opened Wire
  import opened Sql
  import opened Events
  import opened Observer
  import opened Scenarios
  import opened Traces
  import opened Relay
  import opened RelayRuns
  import Runs
  import Completion
  import Speculation
  import GateSafety
  import Coordinates
  import Servers
  import Pairing

  // ---- the gate -------------------------------------------------------------

  /** A well-formed ReadyForQuery releases what is held exactly when nothing it announces suppresses or
      disconnects. */
  lemma ReadyReleases(r: RelayState, f: Frame)
    requires r.ending == Running && f.tag == UPPER_Z
    ensures var r' := OnServer(r, f);
            r'.toClient == r.toClient + r.held + [Arrival(r.clock, f)] <==>
              !Suppresses(ServerFired(r, f)) && !Disconnects(ServerFired(r, f))
  {
    NoteKeeps(r, Backend(r.observer, ReadServer(f)), BackendEvents(r.observer, ReadServer(f)));
    assert |r.toClient + r.held + [Arrival(r.clock, f)]| > |r.toClient|;
  }

  /** A PortalSuspended changes the statement that is judged but not the tag: what a ReadyForQuery after it
      announces depends on the suspended statement and the tag of an earlier one. */
  lemma SuspensionIsJudgedByAnEarlierTag(s: State, k: StatementClass)
    requires Completion.Ending(k) && s.cycles != []
    ensures var t := Runs.Left(s, Runs.FromServer(PortalSuspended));
            Verdict(t, Idle) == Some(Completion.DoneName(k)) <==>
              s.reliable && !s.cycles[0].error && s.cycles[0].command == GateSafety.LabelOf(k) &&
              Subject(s.cycles[0], Front).kind == k
  {
  }

  // ---- pairing --------------------------------------------------------------

  predicate OnlyNewestOpen(s: State) {
    forall i :: 0 <= i < |s.cycles| - 1 ==> s.cycles[i].sealed
  }

  /** A simple query sent before the Sync of an extended cycle opens a second cycle; nothing else does. */
  lemma QueryBeforeSyncOpensASecondCycle(s: State, m: ClientMessage)
    requires OnlyNewestOpen(s)
    ensures OnlyNewestOpen(Received(s, m)) <==> !(m.Query? && s.cycles != [] && !Newest(s).sealed)
  {
    Runs.ClientCycles(s, m);
    if m.Query? && s.cycles != [] {
      assert Received(s, m).cycles[|s.cycles| - 1] == Newest(s);
    }
  }

  /** An EmptyQueryResponse to an Execute retires nothing: the completion of the next Execute is taken for the
      empty one. */
  lemma EmptyExecuteShiftsTheQueue(w: Pairing.World, tag: Option<Bytes>)
    requires Pairing.InStep(w) && Servers.Busy(w.server) && !w.server.groups[0].simple && w.server.groups[0].empties == 0
    requires var todo := w.server.groups[0].todo; |todo| >= 2 && todo[0].message.Execute? && todo[1].message.Execute?
    ensures var w' := Pairing.Moved(w, Pairing.Reply(EmptyQuery));
            var todo := w.server.groups[0].todo;
            && Pairing.May(w, Pairing.Reply(EmptyQuery)) && Pairing.InStep(w')
            && Servers.Busy(w'.server) && w'.server.groups[0].todo[0] == todo[1]
            && Pairing.May(w', Pairing.Reply(CommandComplete(tag)))
            && w'.observer.cycles != []
            && Subject(w'.observer.cycles[0], Front) == todo[0].statement
  {
    var g := w.server.groups[0];
    Pairing.InStepMove(w, Pairing.Reply(EmptyQuery));
    Pairing.FrontAnswers(w, EmptyQuery);
    Pairing.CompletionAnswered(w.observer.cycles[0], g, CommandComplete(tag));
    EmptyQueryChangesNothing(w.observer);
  }

  lemma EmptyQueryChangesNothing(s: State)
    ensures Backend(s, EmptyQuery) == s
  {
    assert s.cycles != [] ==> [s.cycles[0]] + s.cycles[1..] == s.cycles;
  }

  /** A suppressed client frame is not sent, but the observer counts it. */
  lemma SuppressedRequestIsCounted(r: RelayState, f: Frame, m: ClientMessage)
    requires r.ending == Running && Suppresses(ClientFired(r, m)) && !Disconnects(ClientFired(r, m))
    ensures OnClient(r, f, m).toServer == r.toServer
    ensures OnClient(r, f, m).observer == Frontend(r.observer, m)
  {
    ClientShape(r, f, m);
  }

  /** What a request may be if the pairing is to survive its suppression: something that takes part in no
      cycle, or joins the open cycle without executing or ending it, or executes in a group that has failed. */
  predicate Negligible(v: Servers.Server, m: ClientMessage) {
    !Opens(m) ||
    (Servers.Open(v) && Servers.Latest(v).tracked &&
     (m.Parse? || m.Bind? || m.Close? || m.Malformed? || (m.Execute? && Servers.Latest(v).failed)))
  }

  /** The server never learns of a suppressed request, so cycles and groups part company, except exactly when
      the request is negligible. */
  lemma SuppressedRequestBreaksPairing(w: Pairing.World, m: ClientMessage)
    requires Pairing.InStep(w) && Servers.MayAsk(w.server, m)
    ensures Pairing.Paired(Frontend(w.observer, m).cycles, w.server.groups) <==> Negligible(w.server, m)
  {
    var s, v := w.observer, w.server;
    TallyOnlyCounts(Received(s, m), ClientNames(s, m));
    Runs.ClientCycles(s, m);
    if Opens(m) {
      Pairing.OlderGroups(s, m, v);
      if Servers.Open(v) && Servers.Latest(v).tracked {
        JoiningBreaks(s, m, v);
      }
    }
  }

  /** A suppressed request that joins the open cycle. */
  lemma JoiningBreaks(s: State, m: ClientMessage, v: Servers.Server)
    requires Servers.Orderly(v) && Pairing.Paired(s.cycles, v.groups) && Servers.MayAsk(v, m) && Opens(m)
    requires Servers.Open(v) && Servers.Latest(v).tracked
    ensures Pairing.Paired(Received(s, m).cycles, v.groups) <==>
              m.Parse? || m.Bind? || m.Close? || m.Malformed? || (m.Execute? && Servers.Latest(v).failed)
  {
    var n := |v.groups| - 1;
    Runs.ClientCycles(s, m);
    Pairing.OlderGroups(s, m, v);
    assert Servers.WellFormed(v.groups[n]);
    assert Received(s, m).cycles[..n] == s.cycles[..n];
    assert Pairing.Fits(s.cycles[n], v.groups[n]);
    assert Pairing.Paired(Received(s, m).cycles, v.groups) <==> Pairing.Fits(Received(s, m).cycles[n], v.groups[n]);
  }

  // ---- names ----------------------------------------------------------------

  /** What the last mutation on a name makes of it; nothing when there is none. */
  function Final(ps: seq<Mutation>, n: Bytes): Option<Option<Statement>> {
    if ps == [] then None
    else
      match ps[|ps| - 1]
      case ParseOf(name, statement) => if name == n then Some(Some(statement)) else Final(ps[..|ps| - 1], n)
      case CloseOf(kind, name) => if kind == UPPER_S && name == n then Some(None) else Final(ps[..|ps| - 1], n)
      case BindOf(_, _) => Final(ps[..|ps| - 1], n)
  }

  lemma {:induction false} AppliedIsFinal(names: Names, ps: seq<Mutation>, n: Bytes)
    ensures Lookup(Speculation.ApplyAll(names, ps), n) ==
            if Final(ps, n).Some? then Final(ps, n).value else Lookup(names, n)
    decreases |ps|
  {
    if ps != [] {
      var init := ps[..|ps| - 1];
      assert init + [ps[|ps| - 1]] == ps;
      Speculation.ApplyAllSnoc(names, init, ps[|ps| - 1]);
      AppliedIsFinal(names, init, n);
    }
  }

  /** After an ErrorResponse the assumed names are the confirmed ones, so what later cycles still have pending
      is forgotten: the refinement survives exactly when all of that changes nothing. */
  lemma ErrorKeepsRefinement(s: State)
    requires s.cycles != []
    ensures Speculation.Refines(Runs.Left(s, Runs.FromServer(ErrorResponse))) <==>
              forall n: Bytes :: n != [] && Final(Speculation.Backlog(s.cycles[1..]), n).Some? ==>
                Final(Speculation.Backlog(s.cycles[1..]), n).value == Lookup(s.confirmedPrepared, n)
  {
    var t := Runs.Left(s, Runs.FromServer(ErrorResponse));
    var later := Speculation.Backlog(s.cycles[1..]);
    assert t.cycles[0].mutations == [] && t.cycles[1..] == s.cycles[1..];
    assert Speculation.Backlog(t.cycles) == later;
    forall n: Bytes
      ensures Lookup(Speculation.ApplyAll(s.confirmedPrepared, later), n) ==
              if Final(later, n).Some? then Final(later, n).value else Lookup(s.confirmedPrepared, n)
    {
      AppliedIsFinal(s.confirmedPrepared, later, n);
    }
    RefinesByName(t, s.confirmedPrepared, later);
  }

  lemma RefinesByName(t: State, names: Names, ps: seq<Mutation>)
    requires t.prepared == t.confirmedPrepared == names && Speculation.Backlog(t.cycles) == ps
    ensures Speculation.Refines(t) <==>
              forall n: Bytes :: n != [] ==> Lookup(names, n) == Lookup(Speculation.ApplyAll(names, ps), n)
  {
  }

  /** A simple query forgets the unnamed statement at once, even one still to be confirmed: the empty name
      agrees with the backlog exactly when the backlog does not end by defining it. */
  lemma QueryForgetsTheUnnamed(s: State, m: ClientMessage)
    requires m.Query?
    ensures var t := Received(s, m);
            Lookup(t.prepared, []) == Lookup(Speculation.ApplyAll(t.confirmedPrepared, Speculation.Backlog(t.cycles)), []) <==>
              Final(Speculation.Backlog(s.cycles), []) in {None, Some(None)}
  {
    var t := Received(s, m);
    Speculation.ClientBacklog(s, m);
    assert Speculation.Backlog(s.cycles) + [] == Speculation.Backlog(s.cycles);
    AppliedIsFinal(t.confirmedPrepared, Speculation.Backlog(s.cycles), []);
  }

  function ApplyPortals(names: Names, ps: seq<Mutation>): Names {
    if ps == [] then names else ApplyPortal(ApplyPortals(names, ps[..|ps| - 1]), ps[|ps| - 1])
  }

  /** What the last mutation of a portal makes of it; nothing when there is none. */
  function FinalPortal(ps: seq<Mutation>, n: Bytes): Option<Option<Statement>> {
    if ps == [] then None
    else
      match ps[|ps| - 1]
      case BindOf(portal, statement) => if portal == n then Some(Some(statement)) else FinalPortal(ps[..|ps| - 1], n)
      case CloseOf(kind, name) =>
        if kind != UPPER_S && name == n then Some(None) else FinalPortal(ps[..|ps| - 1], n)
      case ParseOf(_, _) => FinalPortal(ps[..|ps| - 1], n)
  }

  predicate LeavesBound(ps: seq<Mutation>, n: Bytes) {
    FinalPortal(ps, n).Some? && FinalPortal(ps, n).value.Some?
  }

  lemma {:induction false} AppliedPortalIsFinal(names: Names, ps: seq<Mutation>, n: Bytes)
    ensures Lookup(ApplyPortals(names, ps), n) ==
            if FinalPortal(ps, n).Some? then FinalPortal(ps, n).value else Lookup(names, n)
    decreases |ps|
  {
    if ps != [] {
      AppliedPortalIsFinal(names, ps[..|ps| - 1], n);
    }
  }

  /** For portals, what `Speculation.Refines` says of prepared statements. */
  ghost predicate PortalsRefine(s: State) {
    forall n: Bytes :: Lookup(s.portals, n) == Lookup(ApplyPortals(s.confirmedPortals, Speculation.Backlog(s.cycles)), n)
  }

  /** Going idle forgets every portal, also those that later cycles are about to bind: with cycles in flight the
      portals refine exactly when none of those leaves a portal bound. */
  lemma IdleForgetsPortals(s: State)
    requires |s.cycles| > 1
    ensures PortalsRefine(Runs.Left(s, Runs.FromServer(Ready(Idle)))) <==>
              forall n: Bytes :: !LeavesBound(Speculation.Backlog(s.cycles[1..]), n)
  {
    var t := Runs.Left(s, Runs.FromServer(Ready(Idle)));
    var later := Speculation.Backlog(s.cycles[1..]);
    assert [s.cycles[0]] + s.cycles[1..] == s.cycles;
    assert t.cycles == s.cycles[1..] && t.portals == map[] == t.confirmedPortals;
    var bound := ApplyPortals(t.confirmedPortals, later);
    forall n: Bytes
      ensures Lookup(t.portals, n) == Lookup(bound, n) <==> !LeavesBound(later, n)
    {
      AppliedPortalIsFinal(t.confirmedPortals, later, n);
    }
    PortalsRefineByName(t, bound);
  }

  lemma PortalsRefineByName(t: State, bound: Names)
    requires bound == ApplyPortals(t.confirmedPortals, Speculation.Backlog(t.cycles))
    ensures PortalsRefine(t) <==> forall n: Bytes :: Lookup(t.portals, n) == Lookup(bound, n)
  {
  }

  // ---- replay ---------------------------------------------------------------

  /** The first event of a completion describes the front cycle as it was. */
  lemma CompletionEvent(s: State, tag: Option<Bytes>)
    ensures var e := BackendEvents(s, CommandComplete(tag))[0];
            e.name.CommandCompleted? && Runs.Describes(e, s, Front)
  {
    Runs.StepShape(s, Runs.FromServer(CommandComplete(tag)));
    assert s.cycles != [] ==> [s.cycles[0]] + s.cycles[1..] == s.cycles;
    assert Before(s, CommandComplete(tag)) == s;
  }

  /** A simple query's cycle looks the same after its first completion. */
  lemma SameSubject(s: State, tag: Option<Bytes>)
    requires s.cycles != [] && !s.cycles[0].extended && s.cycles[0].statementIndex == 0 && |s.cycles[0].statements| <= 1
    ensures var t := Runs.Left(s, Runs.FromServer(CommandComplete(tag)));
            && t.cycles != [] && t.cycles[0].id == s.cycles[0].id && t.epoch == s.epoch && t.reliable == s.reliable
            && t.startup == s.startup && t.id == s.id
            && Subject(t.cycles[0], Front) == Subject(s.cycles[0], Front)
            && IndexOf(t.cycles[0], Front) == IndexOf(s.cycles[0], Front)
  {
  }

  /** The completions of a simple query with several statements share their coordinate, so a fault recorded at
      the second is replayed at the first. */
  lemma LaterCompletionReplaysEarlier(s: State, first: Option<Bytes>, second: Option<Bytes>, scenario: Scenario)
    requires s.cycles != [] && !s.cycles[0].extended && s.cycles[0].statementIndex == 0
    requires |s.cycles[0].statements| <= 1
    requires Hits(scenario, BackendEvents(Backend(s, CommandComplete(first)), CommandComplete(second))[0])
    ensures var e := BackendEvents(s, CommandComplete(first))[0];
            var f := BackendEvents(Backend(s, CommandComplete(first)), CommandComplete(second))[0];
            Coordinates.SamePoint(e, f) && Hits(Rebuild(f, scenario), e)
  {
    var t := Backend(s, CommandComplete(first));
    CompletionEvent(s, first);
    CompletionEvent(t, second);
    Runs.StepShape(s, Runs.FromServer(CommandComplete(first)));
    SameSubject(s, first);
  }
}
