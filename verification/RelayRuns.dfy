/** Runs of the relay, and the run of the observer inside each of them. */
module RelayRuns {
  import opened Wire
  import opened Events
  import opened Observer
  import opened Scenarios
  import opened Traces
  import opened Relay
  import opened Runs

  lemma {:induction false} AppliedAppend(ms: seq<MatcherState>, a: seq<Event>, b: seq<Event>)
    ensures Applied(ms, a + b) == Applied(Applied(ms, a), b)
    decreases |b|
  {
    if b == [] {
      assert a + b == a;
    } else {
      assert (a + b)[..|a + b| - 1] == a + b[..|b| - 1];
      AppliedAppend(ms, a, b[..|b| - 1]);
    }
  }

  lemma {:induction false} FiredAppend(ms: seq<MatcherState>, a: seq<Event>, b: seq<Event>)
    ensures Fired(ms, a + b) == Fired(ms, a) + Fired(Applied(ms, a), b)
    decreases |b|
  {
    if b == [] {
      assert a + b == a;
    } else {
      var c := b[..|b| - 1];
      assert (a + b)[..|a + b| - 1] == a + c;
      AppliedAppend(ms, a, c);
      FiredAppend(ms, a, c);
      var last := FiredOn(Applied(ms, a + c), b[|b| - 1]);
      assert Fired(ms, a) + (Fired(Applied(ms, a), c) + last) == (Fired(ms, a) + Fired(Applied(ms, a), c)) + last;
    }
  }

  lemma {:induction false} RecordedAppend(ms: seq<MatcherState>, a: seq<Event>, b: seq<Event>)
    ensures Recorded(ms, a + b) == Recorded(ms, a) + Recorded(Applied(ms, a), b)
    decreases |b|
  {
    if b == [] {
      assert a + b == a;
    } else {
      var c := b[..|b| - 1];
      assert (a + b)[..|a + b| - 1] == a + c;
      AppliedAppend(ms, a, c);
      RecordedAppend(ms, a, c);
      var last := RecordsOn(b[|b| - 1], FiredOn(Applied(ms, a + c), b[|b| - 1]));
      assert Recorded(ms, a) + (Recorded(Applied(ms, a), c) + last) == (Recorded(ms, a) + Recorded(Applied(ms, a), c)) + last;
    }
  }

  /** The step leaves the client's side of the wire alone. */
  lemma NoteKeeps(r: RelayState, s: State, es: seq<Event>)
    ensures var n := Note(r, s, es);
            n.held == r.held && n.heldSize == r.heldSize && n.toClient == r.toClient && n.toServer == r.toServer &&
            n.clock == r.clock && n.ending == r.ending && n.observer == s && n.matchers == Applied(r.matchers, es) &&
            n.trace == r.trace + Recorded(r.matchers, es) && n.limit == Limit(r.limit, Fired(r.matchers, es))
  {
  }

  /** Whether a client frame is written upstream. */
  predicate Sends(r: RelayState, m: ClientMessage) {
    !Disconnects(ClientFired(r, m)) && !Suppresses(ClientFired(r, m))
  }

  /** What the observer sees of one input. */
  function SeenAt(r: RelayState, i: Input): seq<Seen> {
    if r.ending != Running then []
    else
      match i
      case ClientFrame(_, m) => [FromClient(m, Sends(r, m))]
      case ServerFrame(f) => [FromServer(ReadServer(f))]
      case _ => []
  }

  /** The events of one input. */
  function EventsAt(r: RelayState, i: Input): seq<Event> {
    var xs := SeenAt(r, i);
    if xs == [] then [] else EventsOf(r.observer, xs[0])
  }

  function SeenIn(r: RelayState, inputs: seq<Input>): seq<Seen> {
    if inputs == [] then []
    else SeenIn(r, inputs[..|inputs| - 1]) + SeenAt(Relayed(r, inputs[..|inputs| - 1]), inputs[|inputs| - 1])
  }

  lemma AnnouncedShape(r: RelayState)
    ensures Announced(r) == Note(r, Forwarded(r.observer), ForwardedEvents(r.observer)).(ending := Announced(r).ending)
  {
  }

  /** Two batches of events in a row are one batch. */
  lemma NoteTwice(r: RelayState, s: State, a: seq<Event>, t: State, b: seq<Event>)
    ensures Note(Note(r, s, a), t, b) == Note(r, t, a + b)
  {
    AppliedAppend(r.matchers, a, b);
    FiredAppend(r.matchers, a, b);
    RecordedAppend(r.matchers, a, b);
    LimitAppend(r.limit, Fired(r.matchers, a), Fired(Applied(r.matchers, a), b));
    assert r.trace + (Recorded(r.matchers, a) + Recorded(Applied(r.matchers, a), b)) ==
           (r.trace + Recorded(r.matchers, a)) + Recorded(Applied(r.matchers, a), b);
  }

  /** A client frame is one step of the observer, and nothing reaches the client by it. */
  lemma ClientShape(r: RelayState, f: Frame, m: ClientMessage)
    ensures var x := FromClient(m, Sends(r, m));
            var r' := OnClient(r, f, m);
            r' == Note(r, Advance(r.observer, x), EventsOf(r.observer, x))
                    .(toServer := if Sends(r, m) then r.toServer + [f] else r.toServer, ending := r'.ending)
  {
    var first := FrontendEvents(r.observer, m);
    var noted := ClientNoted(r, m);
    if Sends(r, m) && Executes(m) {
      var sent := noted.(toServer := noted.toServer + [f]);
      AnnouncedShape(sent);
      NoteTwice(r, noted.observer, first, Forwarded(noted.observer), ForwardedEvents(noted.observer));
    } else {
      assert first + [] == first;
    }
  }

  lemma ConcludeKeeps(r: RelayState, f: Frame, gate: bool, suppress: bool, disconnect: bool)
    ensures var r' := Conclude(r, f, gate, suppress, disconnect);
            && r'.observer == r.observer && r'.matchers == r.matchers && r'.toServer == r.toServer && r'.clock == r.clock
            && (r'.trace == r.trace || r'.trace == r.trace + [Lifecycle(r.observer.id, "result.truncated")])
  {
  }

  /** A server frame is one step of the observer, and nothing reaches the server by it. */
  lemma ServerShape(r: RelayState, f: Frame)
    ensures var x := FromServer(ReadServer(f));
            var r' := OnServer(r, f);
            var noted := Note(r, Advance(r.observer, x), EventsOf(r.observer, x));
            && r'.observer == noted.observer && r'.matchers == noted.matchers && r'.toServer == r.toServer
            && r'.clock == r.clock
            && (r'.trace == noted.trace || r'.trace == noted.trace + [Lifecycle(noted.observer.id, "result.truncated")])
  {
    ConcludeKeeps(ServerNoted(r, f), f, Gated(r, f), Suppresses(ServerFired(r, f)), Disconnects(ServerFired(r, f)));
  }

  /** The events in a trace. */
  function EventsIn(trace: seq<Record>): seq<Event> {
    if trace == [] then []
    else EventsIn(trace[..|trace| - 1]) +
         match trace[|trace| - 1]
         case Semantic(e) => [e]
         case _ => []
  }

  lemma {:induction false} EventsInAppend(a: seq<Record>, b: seq<Record>)
    ensures EventsIn(a + b) == EventsIn(a) + EventsIn(b)
    decreases |b|
  {
    if b == [] {
      assert a + b == a;
    } else {
      assert (a + b)[..|a + b| - 1] == a + b[..|b| - 1];
      EventsInAppend(a, b[..|b| - 1]);
    }
  }

  lemma {:induction false} EventsInFaults(e: Event, fired: seq<Scenario>)
    ensures EventsIn(FaultRecords(e, fired)) == []
    decreases |fired|
  {
    if fired != [] {
      assert FaultRecords(e, fired)[..|fired| - 1] == FaultRecords(e, fired[..|fired| - 1]);
      EventsInFaults(e, fired[..|fired| - 1]);
    }
  }

  lemma EventsInOne(x: Record)
    ensures EventsIn([x]) == if x.Semantic? then [x.event] else []
  {
    assert [x][..0] == [];
  }

  lemma EventsInRecords(e: Event, fired: seq<Scenario>)
    ensures EventsIn(RecordsOn(e, fired)) == [e]
  {
    EventsInOne(Semantic(e));
    EventsInFaults(e, fired);
    EventsInAppend([Semantic(e)], FaultRecords(e, fired));
  }

  lemma RecordedNext(records: seq<Record>, es: seq<Event>, e: Event, fired: seq<Scenario>)
    requires EventsIn(records) == es
    ensures EventsIn(records + RecordsOn(e, fired)) == es + [e]
  {
    EventsInRecords(e, fired);
    EventsInAppend(records, RecordsOn(e, fired));
  }

  lemma {:induction false} EventsInRecorded(ms: seq<MatcherState>, es: seq<Event>)
    ensures EventsIn(Recorded(ms, es)) == es
    decreases |es|
  {
    if es != [] {
      var init, e := es[..|es| - 1], es[|es| - 1];
      EventsInRecorded(ms, init);
      RecordedNext(Recorded(ms, init), init, e, FiredOn(Applied(ms, init), e));
    }
  }

  /** What one input does to the observer, the matchers and the trace. */
  lemma StepShape(r: RelayState, i: Input)
    ensures var r' := Step(r, i);
            && r'.observer == Run(r.observer, SeenAt(r, i))
            && r'.matchers == Applied(r.matchers, EventsAt(r, i))
            && (r'.trace == r.trace + Recorded(r.matchers, EventsAt(r, i)) ||
                r'.trace == r.trace + Recorded(r.matchers, EventsAt(r, i)) + [Lifecycle(r'.observer.id, "result.truncated")])
            && r'.clock == r.clock + 1
  {
    var xs := SeenAt(r, i);
    assert xs != [] ==> xs[..0] == [];
    assert r.trace + [] == r.trace;
    if r.ending == Running {
      match i {
        case ClientFrame(f, m) => ClientShape(r, f, m);
        case ServerFrame(f) => ServerShape(r, f);
        case _ =>
      }
    }
  }

  lemma HistoryNext(s: State, xs: seq<Seen>, x: Seen)
    ensures Run(s, xs + [x]) == Advance(Run(s, xs), x)
    ensures History(s, xs + [x]) == History(s, xs) + EventsOf(Run(s, xs), x)
  {
    assert (xs + [x])[..|xs|] == xs;
  }

  /** A relay state is explained by a run of the observer: the trace records exactly the events of that run,
      and each matcher has seen exactly these. */
  predicate Explained(r: RelayState, r': RelayState, observer: State, es: seq<Event>, inputs: nat) {
    && r'.observer == observer
    && r'.matchers == Applied(r.matchers, es)
    && EventsIn(r'.trace) == EventsIn(r.trace) + es
    && r'.clock == r.clock + inputs
  }

  lemma SeenExtends(s: State, xs: seq<Seen>, ys: seq<Seen>, now: seq<Event>)
    requires |ys| <= 1 && now == if ys == [] then [] else EventsOf(Run(s, xs), ys[0])
    ensures Run(s, xs + ys) == Run(Run(s, xs), ys)
    ensures History(s, xs + ys) == History(s, xs) + now
  {
    if ys == [] {
      assert xs + ys == xs && History(s, xs) + [] == History(s, xs);
    } else {
      assert ys == [ys[0]] && ys[..0] == [];
      HistoryNext(s, xs, ys[0]);
    }
  }

  lemma ExplainedNext(r: RelayState, t: RelayState, t': RelayState, s: State, s': State, es: seq<Event>, now: seq<Event>, n: nat)
    requires Explained(r, t, s, es, n)
    requires t'.observer == s' && t'.matchers == Applied(t.matchers, now)
    requires EventsIn(t'.trace) == EventsIn(t.trace) + now && t'.clock == t.clock + 1
    ensures Explained(r, t', s', es + now, n + 1)
  {
    AppliedAppend(r.matchers, es, now);
    assert (EventsIn(r.trace) + es) + now == EventsIn(r.trace) + (es + now);
  }

  lemma TraceNext(r: RelayState, i: Input)
    ensures EventsIn(Step(r, i).trace) == EventsIn(r.trace) + EventsAt(r, i)
  {
    StepShape(r, i);
    var now := Recorded(r.matchers, EventsAt(r, i));
    var cut := Lifecycle(Step(r, i).observer.id, "result.truncated");
    EventsInRecorded(r.matchers, EventsAt(r, i));
    EventsInAppend(r.trace, now);
    EventsInOne(cut);
    EventsInAppend(r.trace + now, [cut]);
  }

  /** Every run of the relay contains a run of the observer. */
  lemma {:induction false} RelayContainsObserverRun(r: RelayState, inputs: seq<Input>)
    ensures var xs := SeenIn(r, inputs);
            Explained(r, Relayed(r, inputs), Run(r.observer, xs), History(r.observer, xs), |inputs|)
  {
    if inputs == [] {
      assert EventsIn(r.trace) + [] == EventsIn(r.trace);
    } else {
      var front, i := inputs[..|inputs| - 1], inputs[|inputs| - 1];
      var t, xs, ys, now := Relayed(r, front), SeenIn(r, front), SeenAt(Relayed(r, front), i), EventsAt(Relayed(r, front), i);
      RelayContainsObserverRun(r, front);
      StepShape(t, i);
      TraceNext(t, i);
      SeenExtends(r.observer, xs, ys, now);
      ExplainedNext(r, t, Step(t, i), t.observer, Run(t.observer, ys), History(r.observer, xs), now, |front|);
    }
  }

  lemma {:induction false} ClockCounts(r: RelayState, inputs: seq<Input>)
    ensures Relayed(r, inputs).clock == r.clock + |inputs|
  {
    if inputs != [] {
      ClockCounts(r, inputs[..|inputs| - 1]);
      StepShape(Relayed(r, inputs[..|inputs| - 1]), inputs[|inputs| - 1]);
    }
  }

  // ---- the size of what is held ---------------------------------------------

  function Weight(held: seq<Arrival>): nat {
    if held == [] then 0 else Weight(held[..|held| - 1]) + Size(held[|held| - 1].frame)
  }

  lemma WeightNext(held: seq<Arrival>, a: Arrival)
    ensures Weight(held + [a]) == Weight(held) + Size(a.frame)
  {
    assert (held + [a])[..|held|] == held;
  }

  /** The running size is that of the frames held, and within the limit. */
  predicate HeldCounted(r: RelayState) {
    r.ending != GateOverflow ==> r.heldSize == Weight(r.held) <= GATE_LIMIT
  }

  lemma ConcludeCounts(r: RelayState, f: Frame, gate: bool, suppress: bool, disconnect: bool)
    requires HeldCounted(r) && r.ending == Running
    ensures HeldCounted(Conclude(r, f, gate, suppress, disconnect))
  {
    WeightNext(r.held, Arrival(r.clock, f));
  }

  lemma HeldCountedNext(r: RelayState, i: Input)
    requires HeldCounted(r)
    ensures HeldCounted(Step(r, i))
  {
    if r.ending == Running {
      match i {
        case ClientFrame(f, m) => ClientShape(r, f, m);
        case ServerFrame(f) =>
          NoteKeeps(r, Backend(r.observer, ReadServer(f)), BackendEvents(r.observer, ReadServer(f)));
          ConcludeCounts(ServerNoted(r, f), f, Gated(r, f), Suppresses(ServerFired(r, f)), Disconnects(ServerFired(r, f)));
        case _ =>
      }
    }
  }

  lemma {:induction false} HeldIsCounted(r: RelayState, inputs: seq<Input>)
    requires HeldCounted(r)
    ensures HeldCounted(Relayed(r, inputs))
  {
    if inputs != [] {
      HeldIsCounted(r, inputs[..|inputs| - 1]);
      HeldCountedNext(Relayed(r, inputs[..|inputs| - 1]), inputs[|inputs| - 1]);
    }
  }
}
