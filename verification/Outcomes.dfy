/** What one frame does to the connection, in terms of the faults it adds to the trace. */
module Outcomes {
  import opened Base
  import opened Wire
  import opened Events
  import opened Observer
  import opened Scenarios
  import opened Traces
  import opened Relay
  import opened RelayRuns
  import opened Faults
  import ClientLog

  // ---- faults and what they ask for -----------------------------------------------

  /** The scenarios of the faults that an input adds to the trace. */
  function Added(r: RelayState, i: Input): seq<Scenario> {
    Fired(r.matchers, EventsAt(r, i))
  }

  lemma AddedToTheTrace(r: RelayState, i: Input)
    ensures FaultsIn(Step(r, i).trace) == FaultsIn(r.trace) + Added(r, i)
  {
    FaultsNext(r, i);
  }

  /** One of them disconnects. */
  predicate Cuts(fs: seq<Scenario>) {
    exists n :: 0 <= n < |fs| && fs[n].action.disconnect != None
  }

  /** One of them drops the frame. */
  predicate Drops(fs: seq<Scenario>) {
    exists n :: 0 <= n < |fs| && fs[n].action.suppress == Some(true)
  }

  /** The row limit is that of the last of them to set one, or as it was. */
  predicate Limits(before: Option<nat>, fs: seq<Scenario>, after: Option<nat>) {
    || (after == before && forall n :: 0 <= n < |fs| ==> fs[n].action.truncate == None)
    || (exists n :: 0 <= n < |fs| && fs[n].action.truncate.Some? && fs[n].action.truncate == after &&
          forall m :: n < m < |fs| ==> fs[m].action.truncate == None)
  }

  lemma {:induction false} LimitLimits(before: Option<nat>, fs: seq<Scenario>)
    ensures Limits(before, fs, Limit(before, fs))
  {
    if fs != [] && fs[|fs| - 1].action.truncate.None? {
      var init := fs[..|fs| - 1];
      LimitLimits(before, init);
      if !(forall n :: 0 <= n < |init| ==> init[n].action.truncate == None) {
        var n :| 0 <= n < |init| && init[n].action.truncate.Some? && init[n].action.truncate == Limit(before, init) &&
                 forall m :: n < m < |init| ==> init[m].action.truncate == None;
        assert fs[n] == init[n] && forall m :: n < m < |fs| ==> fs[m].action.truncate == None;
      }
    }
  }

  lemma CutsIsDisconnects(fs: seq<Scenario>)
    ensures Cuts(fs) <==> Disconnects(fs)
    ensures Drops(fs) <==> Suppresses(fs)
  {
  }

  // ---- a server frame -----------------------------------------------------------------

  /** A scenario that has not fired waits for what the frame may confirm. */
  predicate Awaited(r: RelayState, f: Frame) {
    exists q :: 0 <= q < |r.matchers| && !r.matchers[q].fired &&
      Boundary(r.observer, ReadServer(f)) == Some(r.matchers[q].scenario.when.event)
  }

  lemma AwaitedIsGated(r: RelayState, f: Frame)
    ensures Awaited(r, f) <==> Gated(r, f)
  {
    var b := Boundary(r.observer, ReadServer(f));
    if Gated(r, f) {
      var q :| 0 <= q < |r.matchers| && Gates(r.matchers[q], b.value);
      assert b == Some(r.matchers[q].scenario.when.event);
    }
    if Awaited(r, f) {
      var q :| 0 <= q < |r.matchers| && !r.matchers[q].fired && b == Some(r.matchers[q].scenario.when.event);
      assert Gates(r.matchers[q], b.value);
    }
  }

  /** How a server frame changes what the client has, what is held, and whether the connection goes on. */
  predicate ServerOutcome(r: RelayState, f: Frame, cuts: bool, drops: bool, awaited: bool, limit: Option<nat>, t: RelayState) {
    var a := Arrival(r.clock, f);
    if cuts then t.ending == Disconnected && t.toClient == r.toClient
    else if f.tag == 68 && limit == Some(0) then t.ending == RowsCut && t.toClient == r.toClient
    else if f.tag == 90 then
      t.ending == Running && t.held == [] && t.heldSize == 0 && t.limit == None &&
      t.toClient == if drops then r.toClient else r.toClient + r.held + [a]
    else
      var left := if f.tag == 68 && limit.Some? then Some(limit.value - 1) else limit;
      var over := if f.tag == 68 && left == Some(0) then RowsCut else Running;
      t.limit == left &&
      if drops then t.toClient == r.toClient && t.held == r.held && t.heldSize == r.heldSize && t.ending == over
      else if !awaited && r.held == [] then
        t.toClient == r.toClient + [a] && t.held == [] && t.heldSize == r.heldSize && t.ending == over
      else if r.heldSize + |f.body| + 5 > 1_048_576 then
        t.toClient == r.toClient && t.held == r.held && t.ending == GateOverflow
      else
        t.toClient == r.toClient && t.held == r.held + [a] && t.heldSize == r.heldSize + |f.body| + 5 && t.ending == over
  }

  lemma ConcludeOutcome(r: RelayState, f: Frame, gate: bool, suppress: bool, disconnect: bool)
    requires r.ending == Running
    ensures ServerOutcome(r, f, disconnect, suppress, gate, r.limit, Conclude(r, f, gate, suppress, disconnect))
  {
  }

  lemma SameOutcome(r: RelayState, n: RelayState, f: Frame, cuts: bool, drops: bool, awaited: bool, limit: Option<nat>, t: RelayState, t': RelayState)
    requires ServerOutcome(n, f, cuts, drops, awaited, limit, t)
    requires n.toClient == r.toClient && n.held == r.held && n.heldSize == r.heldSize && n.clock == r.clock
    requires t' == t.(clock := t'.clock)
    ensures ServerOutcome(r, f, cuts, drops, awaited, limit, t')
  {
  }

  /** What a server frame does is decided by the faults it adds, by a scenario that waits for what it may
      confirm, by what is held, and by the rows left. The server is sent nothing. */
  lemma ServerFrameOutcome(r: RelayState, f: Frame) returns (limit: Option<nat>)
    requires r.ending == Running
    ensures var fs := Added(r, ServerFrame(f));
            Limits(r.limit, fs, limit) &&
            ServerOutcome(r, f, Cuts(fs), Drops(fs), Awaited(r, f), limit, Step(r, ServerFrame(f)))
    ensures Step(r, ServerFrame(f)).toServer == r.toServer
  {
    var fs := ServerFired(r, f);
    limit := Limit(r.limit, fs);
    LimitLimits(r.limit, fs);
    CutsIsDisconnects(fs);
    AwaitedIsGated(r, f);
    ServerShape(r, f);
    NoteKeeps(r, Backend(r.observer, ReadServer(f)), BackendEvents(r.observer, ReadServer(f)));
    ConcludeOutcome(ServerNoted(r, f), f, Gated(r, f), Suppresses(fs), Disconnects(fs));
    SameOutcome(r, ServerNoted(r, f), f, Disconnects(fs), Suppresses(fs), Gated(r, f), limit, OnServer(r, f), Step(r, ServerFrame(f)));
  }

  /** A cut leaves a mark in the trace, after the events of the frame. */
  lemma ServerFrameTrace(r: RelayState, f: Frame)
    requires r.ending == Running
    ensures var t := Step(r, ServerFrame(f));
            t.trace == r.trace + Recorded(r.matchers, EventsAt(r, ServerFrame(f))) +
                       if t.ending == RowsCut then [Lifecycle(t.observer.id, "result.truncated")] else []
  {
    NoteKeeps(r, Backend(r.observer, ReadServer(f)), BackendEvents(r.observer, ReadServer(f)));
    ConcludeTrace(ServerNoted(r, f), f, Gated(r, f), Suppresses(ServerFired(r, f)), Disconnects(ServerFired(r, f)));
    ServerShape(r, f);
    var now := r.trace + Recorded(r.matchers, EventsAt(r, ServerFrame(f)));
    assert now + [] == now;
  }

  lemma ConcludeTrace(r: RelayState, f: Frame, gate: bool, suppress: bool, disconnect: bool)
    requires r.ending == Running
    ensures var t := Conclude(r, f, gate, suppress, disconnect);
            t.trace == r.trace + (if t.ending == RowsCut then [Lifecycle(r.observer.id, "result.truncated")] else []) &&
            t.observer == r.observer
  {
    assert r.trace + [] == r.trace;
  }

  // ---- which faults, and in what order -----------------------------------------------

  /** The matchers that fire on an event, by their places, first to last. */
  ghost predicate Places(ms: seq<MatcherState>, e: Event, ks: seq<nat>) {
    && (forall j :: 0 <= j < |ks| ==> ks[j] < |ms|)
    && (forall i, j :: 0 <= i < j < |ks| ==> ks[i] < ks[j])
    && (forall k: nat :: k in ks <==> k < |ms| && Fires(ms[k], e))
  }

  /** Every matcher that fires on an event adds its scenario, in the order of the matchers. */
  lemma {:induction false} FiredInOrder(ms: seq<MatcherState>, e: Event) returns (ks: seq<nat>)
    ensures Places(ms, e, ks) && |FiredOn(ms, e)| == |ks|
    ensures forall j :: 0 <= j < |ks| ==> FiredOn(ms, e)[j] == ms[ks[j]].scenario
  {
    if ms == [] {
      ks := [];
    } else {
      var init, k: nat := ms[..|ms| - 1], |ms| - 1;
      var before := FiredInOrder(init, e);
      ks := if Fires(ms[k], e) then before + [k] else before;
      PlacesNext(ms, e, before, ks);
    }
  }

  lemma PlacesNext(ms: seq<MatcherState>, e: Event, before: seq<nat>, ks: seq<nat>)
    requires ms != [] && Places(ms[..|ms| - 1], e, before)
    requires ks == if Fires(ms[|ms| - 1], e) then before + [|ms| - 1] else before
    ensures Places(ms, e, ks)
  {
    forall k: nat
      ensures k in ks <==> k < |ms| && Fires(ms[k], e)
    {
      assert k in before <==> k < |ms| - 1 && Fires(ms[..|ms| - 1][k], e);
    }
  }

  // ---- a client frame -----------------------------------------------------------------

  /** The faults on the events of the message itself, before it is sent. */
  function AddedFirst(r: RelayState, m: ClientMessage): seq<Scenario> {
    Fired(r.matchers, FrontendEvents(r.observer, m))
  }

  /** How a client frame changes what the server has and whether the connection goes on. */
  predicate ClientOutcome(r: RelayState, f: Frame, first: seq<Scenario>, all: seq<Scenario>, t: RelayState) {
    && t.toServer == (if Cuts(first) || Drops(first) then r.toServer else r.toServer + [f])
    && t.ending == (if Cuts(all) then Disconnected else if f.tag == 88 then Terminated else Running)
    && t.toClient == r.toClient && t.held == r.held && t.heldSize == r.heldSize
  }

  /** A client frame is sent unless a fault on its own events drops it or disconnects; any fault it adds, on
      its forwarding too, may disconnect; otherwise only a Terminate ends the connection. The client is sent
      nothing. */
  lemma ClientFrameOutcome(r: RelayState, f: Frame, m: ClientMessage)
    requires r.ending == Running
    ensures ClientOutcome(r, f, AddedFirst(r, m), Added(r, ClientFrame(f, m)), Step(r, ClientFrame(f, m)))
    ensures AddedFirst(r, m) <= Added(r, ClientFrame(f, m))
    ensures Limits(r.limit, Added(r, ClientFrame(f, m)), Step(r, ClientFrame(f, m)).limit)
  {
    var first, all := ClientFired(r, m), Added(r, ClientFrame(f, m));
    ClientShape(r, f, m);
    CutsIsDisconnects(first);
    CutsIsDisconnects(all);
    LimitLimits(r.limit, all);
    FirstOfAll(r, f, m);
    ClientEnding(r, f, m);
  }

  lemma FirstOfAll(r: RelayState, f: Frame, m: ClientMessage)
    requires r.ending == Running
    ensures ClientFired(r, m) <= Added(r, ClientFrame(f, m))
  {
    var es := FrontendEvents(r.observer, m);
    var more := if Sends(r, m) && Executes(m) then ForwardedEvents(Frontend(r.observer, m)) else [];
    FiredAppend(r.matchers, es, more);
  }

  lemma ClientEnding(r: RelayState, f: Frame, m: ClientMessage)
    requires r.ending == Running
    ensures OnClient(r, f, m).ending ==
            if Disconnects(Added(r, ClientFrame(f, m))) then Disconnected else if f.tag == UPPER_X then Terminated else Running
  {
    if Sends(r, m) && Executes(m) {
      ForwardedMayCut(r, f, m);
    } else {
      assert EventsAt(r, ClientFrame(f, m)) == FrontendEvents(r.observer, m);
    }
  }

  /** The faults on the forwarding come on top; the events of the message itself have cut nothing. */
  lemma ForwardedMayCut(r: RelayState, f: Frame, m: ClientMessage)
    requires r.ending == Running && Sends(r, m) && Executes(m)
    ensures var noted := ClientNoted(r, m);
            Disconnects(Added(r, ClientFrame(f, m))) <==> Disconnects(Fired(noted.matchers, ForwardedEvents(noted.observer)))
  {
    var es, more := FrontendEvents(r.observer, m), ForwardedEvents(Frontend(r.observer, m));
    FiredAppend(r.matchers, es, more);
    SuppressesAppend(ClientFired(r, m), Fired(Applied(r.matchers, es), more));
  }

  /** An end of file or a read that fails ends the connection: what was held is never written. */
  lemma EndOfFileEnds(r: RelayState, i: Input)
    requires r.ending == Running && (i.ClientEof? || i.ServerEof? || i.BadRead?)
    ensures Step(r, i) == r.(clock := r.clock + 1,
                             ending := if i.ClientEof? then ClientGone else if i.ServerEof? then ServerGone else ReadFailed)
  {
  }

  // ---- disconnection, on every run ------------------------------------------------------

  /** An input taken while the connection is up disconnects it exactly when a fault it adds says so. */
  lemma DisconnectsExactly(r: RelayState, i: Input)
    requires r.ending == Running
    ensures Step(r, i).ending == Disconnected <==> Cuts(Added(r, i))
  {
    match i {
      case ClientFrame(f, m) => ClientFrameOutcome(r, f, m);
      case ServerFrame(f) => var limit := ServerFrameOutcome(r, f);
      case _ => assert Added(r, i) == [];
    }
  }

  lemma {:induction false} EndedTakesNothing(r: RelayState, inputs: seq<Input>)
    requires r.ending != Running
    ensures Relayed(r, inputs) == r.(clock := r.clock + |inputs|)
  {
    if inputs != [] {
      EndedTakesNothing(r, inputs[..|inputs| - 1]);
    }
  }

  /** On every run: an input that finds the connection up ends it as disconnected if and only if a fault that it
      adds to the trace disconnects; and from then on nothing is written to either side, nor to the trace. */
  lemma FaultsDisconnect(r: RelayState, before: seq<Input>, i: Input, after: seq<Input>)
    requires Relayed(r, before).ending == Running
    ensures var t, t' := Relayed(r, before), Relayed(r, before + [i]);
            && FaultsIn(t'.trace) == FaultsIn(t.trace) + Added(t, i)
            && (t'.ending == Disconnected <==> Cuts(Added(t, i)))
            && (t'.ending != Running ==> Relayed(r, before + [i] + after) == t'.(clock := t'.clock + |after|))
  {
    assert (before + [i])[..|before|] == before;
    AddedToTheTrace(Relayed(r, before), i);
    DisconnectsExactly(Relayed(r, before), i);
    ClientLog.RelayedAppend(r, before + [i], after);
    if Relayed(r, before + [i]).ending != Running {
      EndedTakesNothing(Relayed(r, before + [i]), after);
    }
  }

  // ---- the order of the trace -------------------------------------------------------------

  /** A fault comes right after its event, or after another fault on it. */
  predicate FaultsFollow(trace: seq<Record>) {
    forall p :: 0 <= p < |trace| && trace[p].Fault? ==>
      p > 0 && (trace[p - 1] == Semantic(trace[p].coordinate) ||
                (trace[p - 1].Fault? && trace[p - 1].coordinate == trace[p].coordinate))
  }

  lemma FollowAppend(a: seq<Record>, b: seq<Record>)
    requires FaultsFollow(a) && FaultsFollow(b)
    ensures FaultsFollow(a + b)
  {
    var all := a + b;
    forall p | 0 <= p < |all| && all[p].Fault?
      ensures p > 0 && (all[p - 1] == Semantic(all[p].coordinate) || (all[p - 1].Fault? && all[p - 1].coordinate == all[p].coordinate))
    {
      if p < |a| {
        assert a[p].Fault?;
      } else {
        assert b[p - |a|].Fault?;
      }
    }
  }

  lemma RecordsFollow(e: Event, fired: seq<Scenario>)
    ensures FaultsFollow(RecordsOn(e, fired))
  {
    var rs := RecordsOn(e, fired);
    forall p | 0 <= p < |rs| && rs[p].Fault?
      ensures p > 0 && (rs[p - 1] == Semantic(rs[p].coordinate) || (rs[p - 1].Fault? && rs[p - 1].coordinate == rs[p].coordinate))
    {
      assert rs[p] == Fault(e, fired[p - 1]);
      assert p > 1 ==> rs[p - 1] == Fault(e, fired[p - 2]);
    }
  }

  lemma {:induction false} RecordedFollow(ms: seq<MatcherState>, es: seq<Event>)
    ensures FaultsFollow(Recorded(ms, es))
    decreases |es|
  {
    if es != [] {
      var init, e := es[..|es| - 1], es[|es| - 1];
      var fired := FiredOn(Applied(ms, init), e);
      RecordedFollow(ms, init);
      RecordsFollow(e, fired);
      FollowAppend(Recorded(ms, init), RecordsOn(e, fired));
    }
  }

  lemma FollowNext(r: RelayState, i: Input)
    requires FaultsFollow(r.trace)
    ensures FaultsFollow(Step(r, i).trace)
  {
    StepShape(r, i);
    var now, cut := Recorded(r.matchers, EventsAt(r, i)), [Lifecycle(Step(r, i).observer.id, "result.truncated")];
    RecordedFollow(r.matchers, EventsAt(r, i));
    FollowAppend(r.trace, now);
    FollowAppend(r.trace + now, cut);
  }

  /** On every run the trace tells for each fault on which event it fired. */
  lemma {:induction false} TraceIsInOrder(r: RelayState, inputs: seq<Input>)
    requires FaultsFollow(r.trace)
    ensures FaultsFollow(Relayed(r, inputs).trace)
  {
    if inputs != [] {
      TraceIsInOrder(r, inputs[..|inputs| - 1]);
      FollowNext(Relayed(r, inputs[..|inputs| - 1]), inputs[|inputs| - 1]);
    }
  }
}
