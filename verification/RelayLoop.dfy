/** The relay as the object whose fields the loop updates frame by frame: crates/pgfault-proxy/src/lib.rs. */
module RelayLoop {
  import opened Base
  import opened Wire
  import opened Events
  import opened Observer
  import opened ConnectionStates
  import opened Scenarios
  import opened Traces
  import opened Relay

  ghost function Views(ms: seq<Matcher>): (r: seq<MatcherState>)
    reads ms
    ensures |r| == |ms|
    ensures forall i :: 0 <= i < |ms| ==> r[i] == ms[i].View()
  {
    if ms == [] then [] else Views(ms[..|ms| - 1]) + [ms[|ms| - 1].View()]
  }

  lemma FiredOnNext(ms: seq<MatcherState>, i: nat, e: Event)
    requires i < |ms|
    ensures FiredOn(ms[..i + 1], e) == FiredOn(ms[..i], e) + if Fires(ms[i], e) then [ms[i].scenario] else []
  {
    assert ms[..i + 1][..i] == ms[..i];
  }

  /** What one more fired scenario adds. */
  lemma FireOne(limit: Option<nat>, fired: seq<Scenario>, s: Scenario, e: Event)
    ensures FaultRecords(e, fired + [s]) == FaultRecords(e, fired) + [Fault(e, s)]
    ensures Limit(limit, fired + [s]) == if s.action.truncate.Some? then s.action.truncate else Limit(limit, fired)
    ensures Suppresses(fired + [s]) <==> Suppresses(fired) || s.action.suppress == Some(true)
    ensures Disconnects(fired + [s]) <==> Disconnects(fired) || s.action.disconnect.Some?
  {
    SuppressesAppend(fired, [s]);
    assert [s][0] == s;
    assert (fired + [s])[..|fired|] == fired;
  }

  /** How far `apply` has come: what it recorded, limited and decided so far. */
  predicate Progress(limit: Option<nat>, fired: seq<Scenario>, limit': Option<nat>, suppress: bool, disconnect: bool) {
    limit' == Limit(limit, fired) && suppress == Suppresses(fired) && disconnect == Disconnects(fired)
  }

  lemma ProgressNext(limit: Option<nat>, fired: seq<Scenario>, middle: Option<nat>, s: bool, d: bool,
                     now: seq<Scenario>, limit': Option<nat>, s': bool, d': bool)
    requires Progress(limit, fired, middle, s, d) && Progress(middle, now, limit', s', d')
    ensures Progress(limit, fired + now, limit', s || s', d || d')
  {
    SuppressesAppend(fired, now);
    LimitAppend(limit, fired, now);
  }

  lemma Regroup(a: seq<Record>, b: seq<Record>, c: seq<Record>)
    ensures (a + b) + c == a + (b + c)
  {
  }

  /** What one more event adds. */
  lemma AppliedNext(ms: seq<MatcherState>, es: seq<Event>, i: nat)
    requires i < |es|
    ensures var now := Applied(ms, es[..i]);
            && Applied(ms, es[..i + 1]) == ObserveAll(now, es[i])
            && Fired(ms, es[..i + 1]) == Fired(ms, es[..i]) + FiredOn(now, es[i])
            && Recorded(ms, es[..i + 1]) == Recorded(ms, es[..i]) + RecordsOn(es[i], FiredOn(now, es[i]))
  {
    assert es[..i + 1][..i] == es[..i];
  }

  /** The message of a client frame is what its bytes say. */
  predicate Genuine(i: Input) {
    i.ClientFrame? ==> i.request == ReadClient(i.frame)
  }

  lemma ReadingKeepsTag(f: Frame)
    ensures Executes(ReadClient(f)) <==> f.tag == UPPER_Q || f.tag == UPPER_E
  {
  }

  /** One connection. Arrival numbers and the clock only instrument the log of what was written. */
  class Connection {
    const state: ConnectionState
    const matchers: seq<Matcher>
    var held: seq<Arrival>
    var heldSize: nat
    var limit: Option<nat>
    var toClient: seq<Arrival>
    var toServer: seq<Frame>
    var trace: seq<Record>
    var clock: nat
    var ending: Ending

    ghost predicate Valid() {
      forall i, j :: 0 <= i < j < |matchers| ==> matchers[i] != matchers[j]
    }

    ghost function View(): RelayState
      reads this, state, matchers
    {
      RelayState(state.View(), Views(matchers), held, heldSize, limit, toClient, toServer, trace, clock, ending)
    }

    constructor (id: nat, startup: Startup, scenarios: seq<Scenario>)
      ensures Valid() && fresh(state) && fresh(set m | m in matchers)
      ensures View() == Connected(id, startup, scenarios)
    {
      var ms: seq<Matcher> := [];
      for i := 0 to |scenarios|
        invariant |ms| == i
        invariant fresh(set m | m in ms)
        invariant forall j, k :: 0 <= j < k < i ==> ms[j] != ms[k]
        invariant forall j :: 0 <= j < i ==> ms[j].View() == Fresh(scenarios[j])
      {
        var m := new Matcher(scenarios[i]);
        ms := ms + [m];
      }
      var s := new ConnectionState(id, startup);
      state := s;
      matchers := ms;
      held, heldSize, limit := [], 0, None;
      toClient, toServer, trace := [], [], [Lifecycle(id, "startup")];
      clock, ending := 0, Running;
    }

    /** One event is recorded and offered to every matcher in turn. */
    method ApplyOne(e: Event) returns (suppress: bool, disconnect: bool)
      requires Valid()
      modifies matchers, `trace, `limit
      ensures Views(matchers) == ObserveAll(old(Views(matchers)), e)
      ensures var fired := FiredOn(old(Views(matchers)), e);
              && trace == old(trace) + RecordsOn(e, fired)
              && Progress(old(limit), fired, limit, suppress, disconnect)
    {
      ghost var before, start := Views(matchers), trace;
      trace := trace + [Semantic(e)];
      suppress, disconnect := OfferAll(e, before);
      assert (start + [Semantic(e)]) + FaultRecords(e, FiredOn(before, e)) == start + RecordsOn(e, FiredOn(before, e));
    }

    method OfferAll(e: Event, ghost before: seq<MatcherState>) returns (suppress: bool, disconnect: bool)
      requires Valid() && |before| == |matchers|
      requires forall j :: 0 <= j < |matchers| ==> matchers[j].View() == before[j]
      modifies matchers, `trace, `limit
      ensures forall j :: 0 <= j < |matchers| ==> matchers[j].View() == ObserveAll(before, e)[j]
      ensures var fired := FiredOn(before, e);
              && trace == old(trace) + FaultRecords(e, fired)
              && limit == Limit(old(limit), fired)
              && suppress == Suppresses(fired)
              && disconnect == Disconnects(fired)
    {
      suppress, disconnect := false, false;
      ghost var target := ObserveAll(before, e);
      ghost var fired: seq<Scenario> := [];
      for i := 0 to |matchers|
        invariant fired == FiredOn(before[..i], e)
        invariant forall j :: 0 <= j < i ==> matchers[j].View() == target[j]
        invariant forall j :: i <= j < |matchers| ==> matchers[j].View() == before[j]
        invariant trace == old(trace) + FaultRecords(e, fired)
        invariant limit == Limit(old(limit), fired)
        invariant suppress == Suppresses(fired)
        invariant disconnect == Disconnects(fired)
      {
        FiredOnNext(before, i, e);
        FireOne(old(limit), fired, before[i].scenario, e);
        assert target[i] == Observed(before[i], e);
        var s, d := Offer(matchers[i], e);
        assert forall j :: 0 <= j < |matchers| && j != i ==> matchers[j] != matchers[i];
        if Fires(before[i], e) {
          fired := fired + [before[i].scenario];
        } else {
          assert fired + [] == fired;
        }
        suppress, disconnect := suppress || s, disconnect || d;
      }
      assert before[..|matchers|] == before;
    }

    method Offer(m: Matcher, e: Event) returns (suppress: bool, disconnect: bool)
      modifies m, `trace, `limit
      ensures m.View() == Observed(old(m.View()), e)
      ensures if Fires(old(m.View()), e)
              then && trace == old(trace) + [Fault(e, m.scenario)]
                   && limit == (if m.scenario.action.truncate.Some? then m.scenario.action.truncate else old(limit))
                   && suppress == (m.scenario.action.suppress == Some(true))
                   && disconnect == m.scenario.action.disconnect.Some?
              else trace == old(trace) && limit == old(limit) && !suppress && !disconnect
    {
      suppress, disconnect := false, false;
      var fires := m.Observe(e);
      if fires {
        suppress, disconnect := Act(e, m.scenario);
      }
    }

    /** Records a fault and carries out its action; a delay is no more than waiting. */
    method Act(e: Event, scenario: Scenario) returns (suppress: bool, disconnect: bool)
      modifies `trace, `limit
      ensures trace == old(trace) + [Fault(e, scenario)]
      ensures limit == if scenario.action.truncate.Some? then scenario.action.truncate else old(limit)
      ensures suppress == (scenario.action.suppress == Some(true))
      ensures disconnect == scenario.action.disconnect.Some?
    {
      trace := trace + [Fault(e, scenario)];
      suppress, disconnect := false, false;
      if scenario.action.suppress == Some(true) {
        suppress := true;
      }
      if scenario.action.truncate.Some? {
        limit := scenario.action.truncate;
      }
      if scenario.action.disconnect.Some? {
        disconnect := true;
      }
    }

    /** `apply`. */
    method Apply(events: seq<Event>) returns (suppress: bool, disconnect: bool)
      requires Valid()
      modifies matchers, `trace, `limit
      ensures Views(matchers) == Applied(old(Views(matchers)), events)
      ensures trace == old(trace) + Recorded(old(Views(matchers)), events)
      ensures Progress(old(limit), Fired(old(Views(matchers)), events), limit, suppress, disconnect)
    {
      suppress, disconnect := false, false;
      ghost var before, start := Views(matchers), trace;
      ghost var fired: seq<Scenario>, recorded: seq<Record> := [], [];
      for i := 0 to |events|
        invariant Views(matchers) == Applied(before, events[..i])
        invariant fired == Fired(before, events[..i])
        invariant recorded == Recorded(before, events[..i])
        invariant trace == start + recorded
        invariant Progress(old(limit), fired, limit, suppress, disconnect)
      {
        AppliedNext(before, events, i);
        ghost var now, middle := FiredOn(Views(matchers), events[i]), limit;
        ghost var added := RecordsOn(events[i], now);
        var s, d := ApplyOne(events[i]);
        ProgressNext(old(limit), fired, middle, suppress, disconnect, now, limit, s, d);
        Regroup(start, recorded, added);
        fired, recorded := fired + now, recorded + added;
        suppress, disconnect := suppress || s, disconnect || d;
      }
      assert events[..|events|] == events;
    }

    /** A frame read from the client. */
    method FromClient(f: Frame)
      requires Valid() && ending == Running
      modifies this, state, matchers
      ensures View() == OnClient(old(View()), f, ReadClient(f))
    {
      ghost var ms := Views(matchers);
      var events := state.Frontend(f);
      assert Views(matchers) == ms;
      ghost var s := state.View();
      var suppress, disconnect := Apply(events);
      assert state.View() == s;
      ghost var m := ReadClient(f);
      assert View() == ClientNoted(old(View()), m);
      ReadingKeepsTag(f);
      ConcludeClient(f, m, suppress, disconnect);
    }

    method ConcludeClient(f: Frame, ghost m: ClientMessage, suppress: bool, disconnect: bool)
      requires Valid() && ending == Running
      requires Executes(m) <==> f.tag == UPPER_Q || f.tag == UPPER_E
      modifies this, state, matchers
      ensures var noted := old(View());
              var sent := if suppress then noted else Forward(noted, f, m);
              View() == if disconnect then noted.(ending := Disconnected)
                        else if f.tag == UPPER_X && sent.ending == Running then sent.(ending := Terminated)
                        else sent
    {
      if disconnect {
        ending := Disconnected;
        return;
      }
      if !suppress {
        Send(f, m);
      }
      if f.tag == UPPER_X && ending == Running {
        ending := Terminated;
      }
    }

    method Send(f: Frame, ghost m: ClientMessage)
      requires Valid() && ending == Running
      requires Executes(m) <==> f.tag == UPPER_Q || f.tag == UPPER_E
      modifies this, state, matchers
      ensures View() == Forward(old(View()), f, m)
    {
      toServer := toServer + [f];
      if f.tag == UPPER_Q || f.tag == UPPER_E {
        Announce();
      }
    }

    method Announce()
      requires Valid() && ending == Running
      modifies this, state, matchers
      ensures View() == Announced(old(View()))
    {
      var e := state.ForwardedEvent();
      ApplyForwarded([e], old(View()));
    }

    method ApplyForwarded(events: seq<Event>, ghost r: RelayState)
      requires Valid() && ending == Running
      requires View() == r.(observer := Forwarded(r.observer)) && events == ForwardedEvents(r.observer)
      modifies this, matchers
      ensures View() == Announced(r)
    {
      var _, disconnect := Apply(events);
      if disconnect {
        ending := Disconnected;
      }
    }

    method IsGated(f: Frame) returns (gate: bool)
      requires Valid()
      ensures gate == Gated(View(), f)
    {
      var boundary := state.CompletionBoundary(f);
      gate := false;
      if boundary.Some? {
        ghost var views := Views(matchers);
        for i := 0 to |matchers|
          invariant gate <==> exists j :: 0 <= j < i && Gates(views[j], boundary.value)
        {
          var g := matchers[i].NeedsGate(boundary.value);
          assert g == Gates(views[i], boundary.value);
          gate := gate || g;
        }
        assert gate == AnyGates(views, boundary.value);
      }
    }

    method Write(f: Frame)
      modifies `toClient
      ensures toClient == old(toClient) + [Arrival(clock, f)]
    {
      toClient := toClient + [Arrival(clock, f)];
    }

    /** Queues behind the gate, or writes through. */
    method Pass(f: Frame, gate: bool)
      requires ending == Running
      modifies `held, `heldSize, `toClient, `ending
      ensures View() == Deliver(old(View()), f, gate)
    {
      if gate || |held| > 0 {
        heldSize := heldSize + |f.body| + 5;
        if heldSize > 1024 * 1024 {
          ending := GateOverflow;
        } else {
          held := held + [Arrival(clock, f)];
        }
      } else {
        Write(f);
      }
    }

    method OnReady(f: Frame, suppress: bool)
      modifies `held, `heldSize, `toClient, `limit
      ensures View() == Release(old(View()), f, suppress)
    {
      if !suppress {
        toClient := toClient + held;
        Write(f);
      }
      held, heldSize, limit := [], 0, None;
    }

    method CutRows()
      modifies `trace, `ending
      ensures View() == Cut(old(View()))
    {
      trace := trace + [Lifecycle(state.id, "result.truncated")];
      ending := RowsCut;
    }

    /** A frame read from the server. */
    method FromServer(f: Frame)
      requires Valid() && ending == Running
      modifies this, state, matchers
      ensures View() == OnServer(old(View()), f)
    {
      var gate := IsGated(f);
      ghost var ms := Views(matchers);
      var events := state.Backend(f);
      assert Views(matchers) == ms;
      ghost var s := state.View();
      var suppress, disconnect := Apply(events);
      assert state.View() == s;
      assert View() == ServerNoted(old(View()), f);
      ConcludeServer(f, gate, suppress, disconnect);
    }

    method ConcludeServer(f: Frame, gate: bool, suppress: bool, disconnect: bool)
      requires ending == Running
      modifies `held, `heldSize, `limit, `toClient, `trace, `ending
      ensures View() == Conclude(old(View()), f, gate, suppress, disconnect)
    {
      if disconnect {
        ending := Disconnected;
        return;
      }
      if f.tag == UPPER_D && limit == Some(0) {
        CutRows();
        return;
      }
      if f.tag == UPPER_Z {
        OnReady(f, suppress);
        return;
      }
      if f.tag == UPPER_D && limit.Some? {
        limit := Some(limit.value - 1);
      }
      if !suppress {
        Pass(f, gate);
      }
      if f.tag == UPPER_D && limit == Some(0) && ending == Running {
        CutRows();
      }
    }

    method Take(i: Input)
      requires Valid() && ending == Running && Genuine(i)
      modifies this, state, matchers
      ensures View() == Handle(old(View()), i)
    {
      match i {
        case ClientFrame(f, _) => FromClient(f);
        case ServerFrame(f) => FromServer(f);
        case ClientEof => ending := ClientGone;
        case ServerEof => ending := ServerGone;
        case BadRead => ending := ReadFailed;
      }
    }

    /** The loop, for whatever the two sockets deliver. */
    method Run(inputs: seq<Input>)
      requires Valid() && forall i :: 0 <= i < |inputs| ==> Genuine(inputs[i])
      modifies this, state, matchers
      ensures View() == Relayed(old(View()), inputs)
    {
      for i := 0 to |inputs|
        invariant View() == Relayed(old(View()), inputs[..i])
      {
        RelayedPrefix(old(View()), inputs, i);
        if ending == Running {
          Take(inputs[i]);
        }
        clock := clock + 1;
      }
      assert inputs[..|inputs|] == inputs;
    }
  }
}
