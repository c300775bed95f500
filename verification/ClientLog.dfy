/** What the relay writes to the client and holds back, with the moment each frame arrived. */
module ClientLog {
  import opened Wire
  import opened Observer
  import opened Relay
  import opened RelayRuns

  /** The frame received at that moment has not been written to the client. */
  predicate Kept(r: RelayState, at: nat) {
    forall n :: 0 <= n < |r.toClient| ==> r.toClient[n].at != at
  }

  /** Nothing is logged from the future. */
  predicate Timely(r: RelayState) {
    && (forall n :: 0 <= n < |r.toClient| ==> r.toClient[n].at < r.clock)
    && (forall n :: 0 <= n < |r.held| ==> r.held[n].at < r.clock)
  }

  /** The client's side of the wire after a server frame that leaves the connection up. */
  predicate WireStep(r: RelayState, r': RelayState, f: Frame, gate: bool, suppress: bool) {
    var a := [Arrival(r.clock, f)];
    if f.tag == UPPER_Z then r'.held == [] && r'.toClient == (if suppress then r.toClient else r.toClient + r.held + a)
    else if suppress then r'.held == r.held && r'.toClient == r.toClient
    else if gate || r.held != [] then r'.held == r.held + a && r'.toClient == r.toClient
    else r'.held == [] && r'.toClient == r.toClient + a
  }

  lemma ConcludeWire(r: RelayState, f: Frame, gate: bool, suppress: bool, disconnect: bool)
    requires Conclude(r, f, gate, suppress, disconnect).ending == Running && r.ending == Running
    ensures WireStep(r, Conclude(r, f, gate, suppress, disconnect), f, gate, suppress)
  {
  }

  lemma ServerWire(r: RelayState, f: Frame)
    requires OnServer(r, f).ending == Running && r.ending == Running
    ensures WireStep(r, OnServer(r, f), f, Gated(r, f), Suppresses(ServerFired(r, f)))
  {
    NoteKeeps(r, Backend(r.observer, ReadServer(f)), BackendEvents(r.observer, ReadServer(f)));
    ConcludeWire(ServerNoted(r, f), f, Gated(r, f), Suppresses(ServerFired(r, f)), Disconnects(ServerFired(r, f)));
  }

  lemma ConcludeLog(r: RelayState, f: Frame, gate: bool, suppress: bool, disconnect: bool)
    ensures var r' := Conclude(r, f, gate, suppress, disconnect);
            var a := [Arrival(r.clock, f)];
            && r'.toClient in {r.toClient, r.toClient + a, r.toClient + r.held + a}
            && r'.held in {r.held, r.held + a, []}
            && r'.clock == r.clock
  {
  }

  /** How one input may change the client's log and what is held, the arriving frame being `a`. */
  predicate LogStep(r: RelayState, r': RelayState, a: seq<Arrival>) {
    && r'.toClient in {r.toClient, r.toClient + a, r.toClient + r.held + a}
    && r'.held in {r.held, r.held + a, []}
    && r'.clock == r.clock + 1
    && |a| <= 1
    && (forall n :: 0 <= n < |a| ==> a[n].at == r.clock)
  }

  lemma LogShape(r: RelayState, i: Input) returns (a: seq<Arrival>)
    ensures LogStep(r, Step(r, i), a)
  {
    a := if i.ServerFrame? then [Arrival(r.clock, i.frame)] else [];
    if r.ending == Running {
      match i {
        case ClientFrame(f, m) => ClientShape(r, f, m);
        case ServerFrame(f) =>
          NoteKeeps(r, Backend(r.observer, ReadServer(f)), BackendEvents(r.observer, ReadServer(f)));
          ConcludeLog(ServerNoted(r, f), f, Gated(r, f), Suppresses(ServerFired(r, f)), Disconnects(ServerFired(r, f)));
        case _ =>
      }
    }
  }

  predicate Holds(r: RelayState, at: nat) {
    exists n :: 0 <= n < |r.held| && r.held[n].at == at
  }

  lemma LogStepKeeps(r: RelayState, r': RelayState, a: seq<Arrival>, at: nat)
    requires LogStep(r, r', a) && Timely(r)
    ensures Timely(r')
    ensures at < r.clock && Kept(r, at) && !Holds(r, at) ==> Kept(r', at) && !Holds(r', at)
  {
  }

  lemma {:induction false} TimelyRun(r: RelayState, inputs: seq<Input>)
    requires Timely(r)
    ensures Timely(Relayed(r, inputs))
  {
    if inputs != [] {
      var t := Relayed(r, inputs[..|inputs| - 1]);
      TimelyRun(r, inputs[..|inputs| - 1]);
      var a := LogShape(t, inputs[|inputs| - 1]);
      LogStepKeeps(t, Relayed(r, inputs), a, 0);
    }
  }

  /** A frame neither written nor held will never be written. */
  lemma {:induction false} DroppedForGood(r: RelayState, inputs: seq<Input>, at: nat)
    requires Timely(r) && at < r.clock && Kept(r, at) && !Holds(r, at)
    ensures Kept(Relayed(r, inputs), at) && !Holds(Relayed(r, inputs), at)
    ensures Timely(Relayed(r, inputs)) && at < Relayed(r, inputs).clock
  {
    if inputs != [] {
      var t := Relayed(r, inputs[..|inputs| - 1]);
      DroppedForGood(r, inputs[..|inputs| - 1], at);
      var a := LogShape(t, inputs[|inputs| - 1]);
      LogStepKeeps(t, Relayed(r, inputs), a, at);
    }
  }

  lemma {:induction false} EndedForGood(r: RelayState, inputs: seq<Input>)
    requires r.ending != Running
    ensures Relayed(r, inputs).toClient == r.toClient && Relayed(r, inputs).ending == r.ending
  {
    if inputs != [] {
      EndedForGood(r, inputs[..|inputs| - 1]);
    }
  }

  lemma {:induction false} RelayedAppend(r: RelayState, a: seq<Input>, b: seq<Input>)
    ensures Relayed(r, a + b) == Relayed(Relayed(r, a), b)
    decreases |b|
  {
    if b == [] {
      assert a + b == a;
    } else {
      assert (a + b)[..|a + b| - 1] == a + b[..|b| - 1];
      RelayedAppend(r, a, b[..|b| - 1]);
    }
  }

  lemma WrittenStep(r: RelayState, i: Input, at: nat)
    requires !Kept(r, at)
    ensures !Kept(Step(r, i), at)
  {
    var a := LogShape(r, i);
    var n :| 0 <= n < |r.toClient| && r.toClient[n].at == at;
    assert Step(r, i).toClient[n].at == at;
  }

  /** What was written stays written. */
  lemma {:induction false} WrittenForGood(r: RelayState, inputs: seq<Input>, at: nat)
    requires !Kept(r, at)
    ensures !Kept(Relayed(r, inputs), at)
  {
    if inputs != [] {
      WrittenForGood(r, inputs[..|inputs| - 1], at);
      WrittenStep(Relayed(r, inputs[..|inputs| - 1]), inputs[|inputs| - 1], at);
    }
  }

  // ---- while something is held ------------------------------------------------

  predicate IsReady(i: Input) {
    i.ServerFrame? && i.frame.tag == UPPER_Z
  }

  /** Behind what is held, a frame other than ReadyForQuery only queues or is dropped. */
  lemma HeldStays(r: RelayState, i: Input)
    requires r.ending == Running && Step(r, i).ending == Running && r.held != [] && !IsReady(i)
    ensures r.held <= Step(r, i).held && Step(r, i).toClient == r.toClient
  {
    match i {
      case ClientFrame(f, m) => ClientShape(r, f, m);
      case ServerFrame(f) => ServerWire(r, f);
      case _ =>
    }
  }
}
