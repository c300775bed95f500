/** The relay loop of one proxied connection, as functions of its state: crates/pgfault-proxy/src/lib.rs. */
module Relay {
  import opened Base
  import opened Wire
  import opened Events
  import opened Observer
  import opened Scenarios
  import opened Traces

  // ---- applying events to the matchers ------------------------------------

  function ObserveAll(ms: seq<MatcherState>, e: Event): (r: seq<MatcherState>)
    ensures |r| == |ms|
  {
    seq(|ms|, i requires 0 <= i < |ms| => Observed(ms[i], e))
  }

  /** The scenarios that fire on one event, in the order of the matchers. */
  function FiredOn(ms: seq<MatcherState>, e: Event): seq<Scenario> {
    if ms == [] then []
    else FiredOn(ms[..|ms| - 1], e) + if Fires(ms[|ms| - 1], e) then [ms[|ms| - 1].scenario] else []
  }

  function FaultRecords(e: Event, fired: seq<Scenario>): (r: seq<Record>)
    ensures |r| == |fired|
  {
    seq(|fired|, i requires 0 <= i < |fired| => Fault(e, fired[i]))
  }

  function RecordsOn(e: Event, fired: seq<Scenario>): seq<Record> {
    [Semantic(e)] + FaultRecords(e, fired)
  }

  /** The matchers after a sequence of events. */
  function Applied(ms: seq<MatcherState>, es: seq<Event>): (r: seq<MatcherState>)
    ensures |r| == |ms|
  {
    if es == [] then ms else ObserveAll(Applied(ms, es[..|es| - 1]), es[|es| - 1])
  }

  /** Every scenario that fires during a sequence of events. */
  function Fired(ms: seq<MatcherState>, es: seq<Event>): seq<Scenario> {
    if es == [] then []
    else Fired(ms, es[..|es| - 1]) + FiredOn(Applied(ms, es[..|es| - 1]), es[|es| - 1])
  }

  /** What is written to the trace meanwhile: each event, then the faults it fired. */
  function Recorded(ms: seq<MatcherState>, es: seq<Event>): seq<Record> {
    if es == [] then []
    else
      var e := es[|es| - 1];
      Recorded(ms, es[..|es| - 1]) + RecordsOn(e, FiredOn(Applied(ms, es[..|es| - 1]), e))
  }

  predicate Suppresses(fired: seq<Scenario>) {
    exists i :: 0 <= i < |fired| && fired[i].action.suppress == Some(true)
  }

  predicate Disconnects(fired: seq<Scenario>) {
    exists i :: 0 <= i < |fired| && fired[i].action.disconnect.Some?
  }

  /** The row limit after the fired scenarios: the last one that sets it wins. */
  function Limit(limit: Option<nat>, fired: seq<Scenario>): Option<nat> {
    if fired == [] then limit
    else if fired[|fired| - 1].action.truncate.Some? then fired[|fired| - 1].action.truncate
    else Limit(limit, fired[..|fired| - 1])
  }

  predicate AnyGates(ms: seq<MatcherState>, boundary: EventName) {
    exists i :: 0 <= i < |ms| && Gates(ms[i], boundary)
  }

  // ---- composing fired scenarios ------------------------------------------

  lemma SuppressesAppend(a: seq<Scenario>, b: seq<Scenario>)
    ensures Suppresses(a + b) <==> Suppresses(a) || Suppresses(b)
    ensures Disconnects(a + b) <==> Disconnects(a) || Disconnects(b)
  {
    forall i | 0 <= i < |a|
      ensures (a + b)[i] == a[i]
    {
    }
    forall i | 0 <= i < |b|
      ensures (a + b)[|a| + i] == b[i]
    {
    }
  }

  lemma {:induction false} LimitAppend(limit: Option<nat>, a: seq<Scenario>, b: seq<Scenario>)
    ensures Limit(limit, a + b) == Limit(Limit(limit, a), b)
    decreases |b|
  {
    if b == [] {
      assert a + b == a;
    } else {
      assert (a + b)[..|a + b| - 1] == a + b[..|b| - 1];
      LimitAppend(limit, a, b[..|b| - 1]);
    }
  }

  // ---- the relay ----------------------------------------------------------

  const GATE_LIMIT: nat := 1024 * 1024

  datatype Ending =
    | Running | ClientGone | ServerGone | ReadFailed | Terminated | Disconnected | RowsCut | GateOverflow

  /** A server frame and the moment it was received, counted in inputs of the relay. */
  datatype Arrival = Arrival(at: nat, frame: Frame)

  datatype RelayState = RelayState(
    observer: State,
    matchers: seq<MatcherState>,
    held: seq<Arrival>,
    heldSize: nat,
    limit: Option<nat>,
    toClient: seq<Arrival>,
    toServer: seq<Frame>,
    trace: seq<Record>,
    clock: nat,
    ending: Ending)

  /** What `select!` may hand to the loop next; a client frame comes with its reading. */
  datatype Input =
    | ClientFrame(frame: Frame, request: ClientMessage)
    | ServerFrame(frame: Frame)
    | ClientEof | ServerEof | BadRead

  function Connected(id: nat, startup: Startup, scenarios: seq<Scenario>): RelayState {
    RelayState(
      Initial(id, startup),
      seq(|scenarios|, i requires 0 <= i < |scenarios| => Fresh(scenarios[i])),
      [], 0, None, [], [], [Lifecycle(id, "startup")], 0, Running)
  }

  function Size(f: Frame): nat {
    |f.body| + 5
  }

  /** The observer moves on and its events are applied and recorded. */
  function Note(r: RelayState, observer: State, es: seq<Event>): RelayState {
    r.(observer := observer,
       matchers := Applied(r.matchers, es),
       trace := r.trace + Recorded(r.matchers, es),
       limit := Limit(r.limit, Fired(r.matchers, es)))
  }

  function ClientNoted(r: RelayState, m: ClientMessage): RelayState {
    Note(r, Frontend(r.observer, m), FrontendEvents(r.observer, m))
  }

  function ClientFired(r: RelayState, m: ClientMessage): seq<Scenario> {
    Fired(r.matchers, FrontendEvents(r.observer, m))
  }

  function Announced(r: RelayState): RelayState {
    var noted := Note(r, Forwarded(r.observer), ForwardedEvents(r.observer));
    if Disconnects(Fired(r.matchers, ForwardedEvents(r.observer))) then noted.(ending := Disconnected) else noted
  }

  /** The frame goes upstream, then a Query or Execute is announced as forwarded. */
  function Forward(r: RelayState, f: Frame, m: ClientMessage): RelayState {
    var sent := r.(toServer := r.toServer + [f]);
    if Executes(m) then Announced(sent) else sent
  }

  function OnClient(r: RelayState, f: Frame, m: ClientMessage): RelayState {
    var noted := ClientNoted(r, m);
    if Disconnects(ClientFired(r, m)) then noted.(ending := Disconnected)
    else
      var sent := if Suppresses(ClientFired(r, m)) then noted else Forward(noted, f, m);
      if f.tag == UPPER_X && sent.ending == Running then sent.(ending := Terminated) else sent
  }

  /** The frame may confirm something an unfired scenario waits for. */
  predicate Gated(r: RelayState, f: Frame) {
    var boundary := Boundary(r.observer, ReadServer(f));
    boundary.Some? && AnyGates(r.matchers, boundary.value)
  }

  function ServerNoted(r: RelayState, f: Frame): RelayState {
    Note(r, Backend(r.observer, ReadServer(f)), BackendEvents(r.observer, ReadServer(f)))
  }

  function ServerFired(r: RelayState, f: Frame): seq<Scenario> {
    Fired(r.matchers, BackendEvents(r.observer, ReadServer(f)))
  }

  function Cut(r: RelayState): RelayState {
    r.(trace := r.trace + [Lifecycle(r.observer.id, "result.truncated")], ending := RowsCut)
  }

  /** One row less to deliver. */
  function CountRow(limit: Option<nat>, f: Frame): Option<nat> {
    if f.tag == UPPER_D && limit.Some? && limit.value > 0 then Some(limit.value - 1) else limit
  }

  /** Where a frame other than ReadyForQuery goes. */
  function Deliver(r: RelayState, f: Frame, gate: bool): RelayState {
    if gate || r.held != [] then
      if r.heldSize + Size(f) > GATE_LIMIT then r.(heldSize := r.heldSize + Size(f), ending := GateOverflow)
      else r.(heldSize := r.heldSize + Size(f), held := r.held + [Arrival(r.clock, f)])
    else r.(toClient := r.toClient + [Arrival(r.clock, f)])
  }

  /** A ReadyForQuery releases what is held, or drops it. */
  function Release(r: RelayState, f: Frame, suppress: bool): RelayState {
    r.(toClient := if suppress then r.toClient else r.toClient + r.held + [Arrival(r.clock, f)],
       held := [], heldSize := 0, limit := None)
  }

  /** The part of a server step that follows its events. */
  function Conclude(r: RelayState, f: Frame, gate: bool, suppress: bool, disconnect: bool): RelayState {
    if disconnect then r.(ending := Disconnected)
    else if f.tag == UPPER_D && r.limit == Some(0) then Cut(r)
    else if f.tag == UPPER_Z then Release(r, f, suppress)
    else
      var counted := r.(limit := CountRow(r.limit, f));
      var delivered := if suppress then counted else Deliver(counted, f, gate);
      if f.tag == UPPER_D && delivered.limit == Some(0) && delivered.ending == Running then Cut(delivered) else delivered
  }

  function OnServer(r: RelayState, f: Frame): RelayState {
    Conclude(ServerNoted(r, f), f, Gated(r, f), Suppresses(ServerFired(r, f)), Disconnects(ServerFired(r, f)))
  }

  function Handle(r: RelayState, i: Input): RelayState {
    match i
    case ClientFrame(f, m) => OnClient(r, f, m)
    case ServerFrame(f) => OnServer(r, f)
    case ClientEof => r.(ending := ClientGone)
    case ServerEof => r.(ending := ServerGone)
    case BadRead => r.(ending := ReadFailed)
  }

  /** An ended connection takes no further input. */
  function Step(r: RelayState, i: Input): RelayState {
    var next := if r.ending == Running then Handle(r, i) else r;
    next.(clock := next.clock + 1)
  }

  function Relayed(r: RelayState, inputs: seq<Input>): RelayState {
    if inputs == [] then r else Step(Relayed(r, inputs[..|inputs| - 1]), inputs[|inputs| - 1])
  }

  lemma RelayedPrefix(r: RelayState, inputs: seq<Input>, k: nat)
    requires k < |inputs|
    ensures Relayed(r, inputs[..k + 1]) == Step(Relayed(r, inputs[..k]), inputs[k])
  {
    assert inputs[..k + 1][..k] == inputs[..k] && inputs[..k + 1][k] == inputs[k];
  }
}
