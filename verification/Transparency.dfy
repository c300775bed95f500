/** Without an effective fault the proxy changes nothing: frames pass in order, down to the bytes. */
module Transparency {
  import opened Base
  import opened Wire
  import opened Events
  import opened Observer
  import opened Scenarios
  import opened Relay
  import opened RelayRuns
  import opened Faults

  /** At most a delay. */
  predicate Inert(s: Scenario) {
    s.action.suppress != Some(true) && s.action.disconnect.None? && s.action.truncate.None?
  }

  predicate AllInert(ss: seq<Scenario>) {
    forall i :: 0 <= i < |ss| ==> Inert(ss[i])
  }

  function Frames(sent: seq<Arrival>): seq<Frame> {
    seq(|sent|, i requires 0 <= i < |sent| => sent[i].frame)
  }

  function FromServer(inputs: seq<Input>): seq<Frame> {
    if inputs == [] then []
    else FromServer(inputs[..|inputs| - 1]) +
         match inputs[|inputs| - 1]
         case ServerFrame(f) => [f]
         case _ => []
  }

  function FromClient(inputs: seq<Input>): seq<Frame> {
    if inputs == [] then []
    else FromClient(inputs[..|inputs| - 1]) +
         match inputs[|inputs| - 1]
         case ClientFrame(f, _) => [f]
         case _ => []
  }

  lemma {:induction false} InertDoesNothing(limit: Option<nat>, fired: seq<Scenario>)
    requires AllInert(fired)
    ensures !Suppresses(fired) && !Disconnects(fired) && Limit(limit, fired) == limit
  {
    if fired != [] {
      InertDoesNothing(limit, fired[..|fired| - 1]);
    }
  }

  lemma FramesAppend(a: seq<Arrival>, b: seq<Arrival>)
    ensures Frames(a + b) == Frames(a) + Frames(b)
  {
  }

  /** The inputs a connection takes: up to the one that ends it. */
  function Taken(r: RelayState, inputs: seq<Input>): seq<Input> {
    if inputs == [] then []
    else
      var front := inputs[..|inputs| - 1];
      if Relayed(r, front).ending == Running then inputs else Taken(r, front)
  }

  /** The frame does not fit behind the gate. */
  predicate Overflows(r: RelayState, i: Input) {
    && r.ending == Running && i.ServerFrame? && i.frame.tag != UPPER_Z
    && (Gated(r, i.frame) || r.held != []) && Weight(r.held) + Size(i.frame) > GATE_LIMIT
  }

  predicate EverOverflows(r: RelayState, inputs: seq<Input>) {
    inputs != [] &&
    (EverOverflows(r, inputs[..|inputs| - 1]) || Overflows(Relayed(r, inputs[..|inputs| - 1]), inputs[|inputs| - 1]))
  }

  /** What is `ending`, delivered or held after the frames `fromServer` and `fromClient`. After an overflow the
      last frame is lost, and so is what is held. */
  predicate Faithful(r: RelayState, fromServer: seq<Frame>, fromClient: seq<Frame>) {
    && r.limit.None? && r.toServer == fromClient && HeldCounted(r)
    && r.ending in {Running, ClientGone, ServerGone, ReadFailed, Terminated, GateOverflow}
    && if r.ending == GateOverflow then
         && fromServer != [] && Frames(r.toClient + r.held) == fromServer[..|fromServer| - 1]
         && Weight(r.held) + Size(fromServer[|fromServer| - 1]) > GATE_LIMIT
       else Frames(r.toClient + r.held) == fromServer
  }

  /** A server frame goes to the end of what was delivered or held, unless it does not fit behind the gate. */
  lemma InertConclude(r: RelayState, f: Frame, gate: bool)
    requires r.limit.None? && r.ending == Running && HeldCounted(r)
    ensures var r' := Conclude(r, f, gate, false, false);
            var lost := f.tag != UPPER_Z && (gate || r.held != []) && Weight(r.held) + Size(f) > GATE_LIMIT;
            && r'.limit.None? && r'.ending == (if lost then GateOverflow else Running)
            && r'.toClient + r'.held == r.toClient + r.held + (if lost then [] else [Arrival(r.clock, f)])
            && (lost ==> r'.held == r.held)
            && (f.tag == UPPER_Z ==> r'.held == [])
  {
    var a := [Arrival(r.clock, f)];
    assert (r.toClient + r.held) + a == r.toClient + (r.held + a);
    assert r.held == [] ==> r.toClient + r.held == r.toClient;
    assert (r.toClient + r.held + a) + [] == r.toClient + r.held + a;
    assert (r.toClient + a) + [] == r.toClient + a;
    assert r.toClient + r.held + [] == r.toClient + r.held;
  }

  lemma InertServer(r: RelayState, f: Frame, fromServer: seq<Frame>, fromClient: seq<Frame>)
    requires Faithful(r, fromServer, fromClient) && r.ending == Running && AllInert(ServerFired(r, f))
    ensures Faithful(Step(r, ServerFrame(f)), fromServer + [f], fromClient)
    ensures Step(r, ServerFrame(f)).ending == GateOverflow <==> Overflows(r, ServerFrame(f))
    ensures f.tag == UPPER_Z ==> Step(r, ServerFrame(f)).held == []
  {
    InertWire(r, f);
    ServerShape(r, f);
    HeldCountedNext(r, ServerFrame(f));
    InertFaithful(r, OnServer(r, f), f, fromServer, fromClient, Overflows(r, ServerFrame(f)));
  }

  /** The client's side of the wire. */
  lemma InertWire(r: RelayState, f: Frame)
    requires r.limit.None? && r.ending == Running && HeldCounted(r) && AllInert(ServerFired(r, f))
    ensures var r' := OnServer(r, f);
            var lost := Overflows(r, ServerFrame(f));
            && r'.limit.None? && r'.ending == (if lost then GateOverflow else Running)
            && r'.toClient + r'.held == r.toClient + r.held + (if lost then [] else [Arrival(r.clock, f)])
            && (lost ==> r'.held == r.held)
            && (f.tag == UPPER_Z ==> r'.held == [])
  {
    NoteKeeps(r, Backend(r.observer, ReadServer(f)), BackendEvents(r.observer, ReadServer(f)));
    InertDoesNothing(r.limit, ServerFired(r, f));
    InertConclude(ServerNoted(r, f), f, Gated(r, f));
  }

  lemma InertFaithful(r: RelayState, r': RelayState, f: Frame, fromServer: seq<Frame>, fromClient: seq<Frame>, lost: bool)
    requires Faithful(r, fromServer, fromClient) && r.ending == Running
    requires lost ==> Weight(r.held) + Size(f) > GATE_LIMIT && r'.held == r.held
    requires r'.limit.None? && r'.toServer == r.toServer && HeldCounted(r')
    requires r'.ending == (if lost then GateOverflow else Running)
    requires r'.toClient + r'.held == r.toClient + r.held + (if lost then [] else [Arrival(r.clock, f)])
    ensures Faithful(r', fromServer + [f], fromClient)
  {
    FramesAppend(r.toClient + r.held, [Arrival(r.clock, f)]);
    assert r.toClient + r.held + [] == r.toClient + r.held;
  }

  lemma InertClient(r: RelayState, f: Frame, m: ClientMessage, fromServer: seq<Frame>, fromClient: seq<Frame>)
    requires Faithful(r, fromServer, fromClient) && r.ending == Running
    requires AllInert(Fired(r.matchers, EventsAt(r, ClientFrame(f, m))))
    ensures Faithful(Step(r, ClientFrame(f, m)), fromServer, fromClient + [f])
    ensures Step(r, ClientFrame(f, m)).ending != GateOverflow
  {
    ClientShape(r, f, m);
    InertDoesNothing(r.limit, Fired(r.matchers, EventsAt(r, ClientFrame(f, m))));
    InertSends(r, f, m);
  }

  /** A client frame that fires nothing but delays is sent, and only a Terminate ends the connection. */
  lemma InertSends(r: RelayState, f: Frame, m: ClientMessage)
    requires r.ending == Running && AllInert(Fired(r.matchers, EventsAt(r, ClientFrame(f, m))))
    ensures Sends(r, m) && OnClient(r, f, m).ending == (if f.tag == UPPER_X then Terminated else Running)
  {
    var first := FrontendEvents(r.observer, m);
    var second := ForwardedEvents(Frontend(r.observer, m));
    assert first + [] == first;
    FiredAppend(r.matchers, first, second);
    InertDoesNothing(r.limit, Fired(r.matchers, EventsAt(r, ClientFrame(f, m))));
    SuppressesAppend(Fired(r.matchers, first), Fired(Applied(r.matchers, first), second));
  }

  lemma AllInertParts(a: seq<Scenario>, b: seq<Scenario>)
    requires AllInert(a + b)
    ensures AllInert(a) && AllInert(b)
  {
    assert forall k :: 0 <= k < |a| ==> (a + b)[k] == a[k];
    assert forall k :: 0 <= k < |b| ==> (a + b)[|a| + k] == b[k];
  }

  lemma FaultPrefix(r: RelayState, i: Input)
    requires AllInert(FaultsIn(Step(r, i).trace))
    ensures AllInert(FaultsIn(r.trace)) && AllInert(Fired(r.matchers, EventsAt(r, i)))
  {
    FaultsNext(r, i);
    AllInertParts(FaultsIn(r.trace), Fired(r.matchers, EventsAt(r, i)));
  }

  lemma TakenWhileRunning(r: RelayState, inputs: seq<Input>)
    requires Relayed(r, inputs).ending == Running
    ensures Taken(r, inputs) == inputs
  {
  }

  lemma EndedStays(r: RelayState, i: Input)
    requires r.ending != Running
    ensures Step(r, i) == r.(clock := r.clock + 1)
  {
  }

  lemma InertStep(r: RelayState, i: Input, fromServer: seq<Frame>, fromClient: seq<Frame>)
    requires Faithful(r, fromServer, fromClient) && r.ending == Running && AllInert(Fired(r.matchers, EventsAt(r, i)))
    ensures Faithful(Step(r, i), fromServer + (if i.ServerFrame? then [i.frame] else []),
                     fromClient + (if i.ClientFrame? then [i.frame] else []))
    ensures Step(r, i).ending == GateOverflow <==> Overflows(r, i)
    ensures i.ServerFrame? && i.frame.tag == UPPER_Z ==> Step(r, i).held == []
  {
    assert fromServer + [] == fromServer && fromClient + [] == fromClient;
    match i {
      case ClientFrame(f, m) => InertClient(r, f, m, fromServer, fromClient);
      case ServerFrame(f) => InertServer(r, f, fromServer, fromClient);
      case _ =>
    }
  }

  /** In every state reached without a fault other than delays: the server got what the client sent; what was
      delivered followed by what is held are the frames received from the server, in order; nothing stays held
      past a ReadyForQuery. Scenarios that gate but never fire change this in one case only, which ends the
      connection: exactly when a frame would bring the held bytes over the limit, that frame is lost. */
  lemma {:induction false} RelayIsTransparent(r: RelayState, inputs: seq<Input>)
    requires Faithful(r, [], []) && r.ending == Running
    requires AllInert(FaultsIn(Relayed(r, inputs).trace))
    ensures var taken := Taken(r, inputs);
            && Faithful(Relayed(r, inputs), FromServer(taken), FromClient(taken))
            && (taken != [] && taken[|taken| - 1].ServerFrame? && taken[|taken| - 1].frame.tag == UPPER_Z ==>
                  Relayed(r, inputs).held == [])
    ensures Relayed(r, inputs).ending == GateOverflow <==> EverOverflows(r, inputs)
  {
    if inputs != [] {
      var front, i := inputs[..|inputs| - 1], inputs[|inputs| - 1];
      var t := Relayed(r, front);
      FaultPrefix(t, i);
      RelayIsTransparent(r, front);
      if t.ending == Running {
        TakenWhileRunning(r, front);
        InertStep(t, i, FromServer(front), FromClient(front));
      } else {
        EndedStays(t, i);
      }
    }
  }

  lemma {:induction false} EncodeAllAppend(a: seq<Frame>, b: seq<Frame>)
    ensures EncodeAll(a + b) == EncodeAll(a) + EncodeAll(b)
  {
    if a == [] {
      assert a + b == b;
    } else {
      assert (a + b)[1..] == a[1..] + b;
      EncodeAllAppend(a[1..], b);
    }
  }

  /** The frame that an overflow loses. */
  function Lost(r: RelayState, fromServer: seq<Frame>): seq<Frame> {
    if r.ending == GateOverflow && fromServer != [] then fromServer[|fromServer| - 1..] else []
  }

  lemma FaithfulBytes(r: RelayState, fromServer: seq<Frame>, fromClient: seq<Frame>)
    requires Faithful(r, fromServer, fromClient)
    ensures EncodeAll(fromServer) == EncodeAll(Frames(r.toClient)) + EncodeAll(Frames(r.held)) + EncodeAll(Lost(r, fromServer))
  {
    var kept := Frames(r.toClient + r.held);
    FramesAppend(r.toClient, r.held);
    EncodeAllAppend(Frames(r.toClient), Frames(r.held));
    EncodeAllAppend(kept, Lost(r, fromServer));
    assert kept + Lost(r, fromServer) == fromServer;
  }

  /** Byte for byte, in both directions: what the server was sent and what is not yet a whole frame make up the
      client's byte stream; what the client was sent, what is held, a frame lost to an overflow and what is not
      yet a whole frame make up the server's. */
  lemma BytesAreRelayed(r: RelayState, inputs: seq<Input>, fromServer: Bytes, fromClient: Bytes)
    requires Faithful(r, [], []) && r.ending == Running
    requires AllInert(FaultsIn(Relayed(r, inputs).trace))
    requires FromServer(Taken(r, inputs)) == DecodeAll(fromServer).frames
    requires FromClient(Taken(r, inputs)) == DecodeAll(fromClient).frames
    ensures EncodeAll(Relayed(r, inputs).toServer) + DecodeAll(fromClient).rest == fromClient
    ensures var r' := Relayed(r, inputs);
            EncodeAll(Frames(r'.toClient)) + EncodeAll(Frames(r'.held)) + EncodeAll(Lost(r', DecodeAll(fromServer).frames)) +
            DecodeAll(fromServer).rest == fromServer
  {
    RelayIsTransparent(r, inputs);
    DecodeAllConserves(fromClient);
    DecodeAllConserves(fromServer);
    FaithfulBytes(Relayed(r, inputs), DecodeAll(fromServer).frames, DecodeAll(fromClient).frames);
  }

  /** Every run of a new connection. */
  lemma ConnectionIsTransparent(id: nat, startup: Startup, scenarios: seq<Scenario>, inputs: seq<Input>)
    requires AllInert(FaultsIn(Relayed(Connected(id, startup, scenarios), inputs).trace))
    ensures var r := Connected(id, startup, scenarios);
            var taken := Taken(r, inputs);
            Faithful(Relayed(r, inputs), FromServer(taken), FromClient(taken)) &&
            (Relayed(r, inputs).ending == GateOverflow <==> EverOverflows(r, inputs))
  {
    RelayIsTransparent(Connected(id, startup, scenarios), inputs);
  }
}
