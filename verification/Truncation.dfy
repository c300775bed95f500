/** A truncated result: how many rows reach the client, and when the connection is cut. */
module Truncation {
  import opened Base
  import opened Wire
  import opened Events
  import opened Observer
  import opened Scenarios
  import opened Relay
  import opened RelayRuns
  import opened Transparency
  import ClientLog
  import Runs

  function Rows(fs: seq<Frame>): nat {
    if fs == [] then 0 else Rows(fs[..|fs| - 1]) + if fs[|fs| - 1].tag == UPPER_D then 1 else 0
  }

  lemma RowsNext(fs: seq<Frame>, f: Frame)
    ensures Rows(fs + [f]) == Rows(fs) + if f.tag == UPPER_D then 1 else 0
  {
    assert (fs + [f])[..|fs|] == fs;
  }

  /** While the connection is up, nothing but delays fires and the cycle goes on. */
  predicate Calm(r: RelayState, i: Input) {
    r.ending == Running ==>
      AllInert(Fired(r.matchers, EventsAt(r, i))) &&
      match i
      case ClientFrame(f, _) => f.tag != UPPER_X
      case ServerFrame(f) => f.tag != UPPER_Z
      case _ => false
  }

  /** Nor is anything gated. */
  predicate Undisturbed(r: RelayState, i: Input) {
    Calm(r, i) && (r.ending == Running && i.ServerFrame? ==> !Gated(r, i.frame))
  }

  /** Nothing disturbs the connection on the way. */
  predicate AllUndisturbed(r: RelayState, inputs: seq<Input>) {
    if inputs == [] then true
    else AllUndisturbed(r, inputs[..|inputs| - 1]) && Undisturbed(Relayed(r, inputs[..|inputs| - 1]), inputs[|inputs| - 1])
  }

  /** One server frame when `n` more rows may be delivered. */
  predicate LimitedStep(r: RelayState, r': RelayState, a: Arrival, n: nat) {
    var row := a.frame.tag == UPPER_D;
    && r'.held == []
    && r'.toClient == (if row && n == 0 then r.toClient else r.toClient + [a])
    && r'.ending == (if row && n <= 1 then RowsCut else Running)
    && (r'.ending == Running ==> r'.limit == Some(if row then n - 1 else n))
  }

  lemma LimitedServer(r: RelayState, f: Frame, n: nat)
    requires r.ending == Running && r.held == [] && r.limit == Some(n)
    requires AllInert(ServerFired(r, f)) && f.tag != UPPER_Z && !Gated(r, f)
    ensures LimitedStep(r, OnServer(r, f), Arrival(r.clock, f), n)
  {
    NoteKeeps(r, Backend(r.observer, ReadServer(f)), BackendEvents(r.observer, ReadServer(f)));
    InertDoesNothing(r.limit, ServerFired(r, f));
    LimitedConclude(ServerNoted(r, f), f, n);
  }

  lemma LimitedConclude(r: RelayState, f: Frame, n: nat)
    requires r.ending == Running && r.held == [] && r.limit == Some(n) && f.tag != UPPER_Z
    ensures LimitedStep(r, Conclude(r, f, false, false, false), Arrival(r.clock, f), n)
  {
  }

  lemma LimitedClient(r: RelayState, f: Frame, m: ClientMessage)
    requires r.ending == Running && f.tag != UPPER_X && AllInert(Fired(r.matchers, EventsAt(r, ClientFrame(f, m))))
    ensures var r' := OnClient(r, f, m);
            r'.held == r.held && r'.toClient == r.toClient && r'.limit == r.limit && r'.ending == Running
  {
    ClientShape(r, f, m);
    InertDoesNothing(r.limit, Fired(r.matchers, EventsAt(r, ClientFrame(f, m))));
    InertSends(r, f, m);
  }

  /** Of the frames `sent` by the server, those `given` to the client end with the last row allowed, or just
      before the first row when none is. */
  predicate CutAt(limit: nat, sent: seq<Frame>, given: seq<Frame>) {
    && given <= sent
    && Rows(given) == limit
    && (if limit > 0 then given != [] && given[|given| - 1].tag == UPPER_D
        else |given| < |sent| && sent[|given|].tag == UPPER_D)
  }

  /** The rows that must arrive for the connection to be cut. */
  function Fatal(limit: nat): nat {
    if limit > 1 then limit else 1
  }

  /** What the client was given since `r`. */
  function Given(r: RelayState, r': RelayState): seq<Frame>
    requires r.toClient <= r'.toClient
  {
    Frames(r'.toClient[|r.toClient|..])
  }

  /** The state reached from `r`, which had `limit` rows to deliver, after the server's frames `sent`. */
  predicate Truncating(r: RelayState, r': RelayState, limit: nat, sent: seq<Frame>) {
    && r'.held == [] && r.toClient <= r'.toClient
    && (if Rows(sent) < Fatal(limit)
        then r'.ending == Running && r'.limit == Some(limit - Rows(sent)) && Given(r, r') == sent
        else r'.ending == RowsCut && CutAt(limit, sent, Given(r, r')))
  }

  lemma GivenNext(r: RelayState, t: RelayState, t': RelayState, a: Arrival)
    requires r.toClient <= t.toClient && t'.toClient == t.toClient + [a]
    ensures r.toClient <= t'.toClient && Given(r, t') == Given(r, t) + [a.frame]
  {
    assert t'.toClient[|r.toClient|..] == t.toClient[|r.toClient|..] + [a];
  }

  lemma CutStaysTruncating(r: RelayState, t: RelayState, t': RelayState, limit: nat, sent: seq<Frame>, f: Frame)
    requires Truncating(r, t, limit, sent) && t.ending != Running
    requires t'.held == t.held && t'.toClient == t.toClient && t'.ending == t.ending
    ensures Truncating(r, t', limit, sent + [f])
  {
    RowsNext(sent, f);
    assert sent <= sent + [f];
  }

  /** The row that ends the result. */
  lemma CutNow(limit: nat, sent: seq<Frame>, f: Frame)
    requires f.tag == UPPER_D && Rows(sent) < Fatal(limit) <= Rows(sent) + 1
    ensures CutAt(limit, sent + [f], if limit == 0 then sent else sent + [f])
    ensures Rows(sent + [f]) == Fatal(limit)
  {
    RowsNext(sent, f);
  }

  lemma LimitCuts(r: RelayState, t: RelayState, t': RelayState, limit: nat, sent: seq<Frame>, a: Arrival)
    requires Truncating(r, t, limit, sent) && t.ending == Running && LimitedStep(t, t', a, limit - Rows(sent))
    requires a.frame.tag == UPPER_D && Rows(sent) + 1 >= limit
    ensures Truncating(r, t', limit, sent + [a.frame])
  {
    CutNow(limit, sent, a.frame);
    if limit > 0 {
      GivenNext(r, t, t', a);
    }
    assert Given(r, t') == if limit == 0 then sent else sent + [a.frame];
  }

  lemma LimitPasses(r: RelayState, t: RelayState, t': RelayState, limit: nat, sent: seq<Frame>, a: Arrival)
    requires Truncating(r, t, limit, sent) && t.ending == Running && LimitedStep(t, t', a, limit - Rows(sent))
    requires a.frame.tag != UPPER_D || Rows(sent) + 1 < limit
    ensures Truncating(r, t', limit, sent + [a.frame])
  {
    RowsNext(sent, a.frame);
    GivenNext(r, t, t', a);
  }

  lemma {:induction false} TruncatingRun(r: RelayState, inputs: seq<Input>, limit: nat)
    requires r.ending == Running && r.held == [] && r.limit == Some(limit)
    requires AllUndisturbed(r, inputs)
    ensures Truncating(r, Relayed(r, inputs), limit, FromServer(inputs))
  {
    if inputs == [] {
      assert r.toClient[|r.toClient|..] == [];
    } else {
      var front, i := inputs[..|inputs| - 1], inputs[|inputs| - 1];
      TruncatingRun(r, front, limit);
      TruncatingStep(r, Relayed(r, front), i, limit, FromServer(front));
    }
  }

  lemma LimitedKeepsTruncating(r: RelayState, t: RelayState, t': RelayState, limit: nat, sent: seq<Frame>, a: Arrival)
    requires Truncating(r, t, limit, sent) && t.ending == Running && LimitedStep(t, t', a, limit - Rows(sent))
    ensures Truncating(r, t', limit, sent + [a.frame])
  {
    if a.frame.tag == UPPER_D && Rows(sent) + 1 >= limit {
      LimitCuts(r, t, t', limit, sent, a);
    } else {
      LimitPasses(r, t, t', limit, sent, a);
    }
  }

  /** What the client sees of an undisturbed step of a connection that is up. */
  predicate Undisturbing(t: RelayState, t': RelayState, i: Input, n: nat) {
    match i
    case ServerFrame(f) => LimitedStep(t, t', Arrival(t.clock, f), n)
    case _ => t'.held == t.held && t'.toClient == t.toClient && t'.limit == t.limit && t'.ending == Running
  }

  lemma UndisturbedStep(t: RelayState, i: Input, n: nat)
    requires t.ending == Running && t.held == [] && t.limit == Some(n) && Undisturbed(t, i)
    ensures Undisturbing(t, Step(t, i), i, n)
  {
    match i {
      case ClientFrame(f, m) => LimitedClient(t, f, m);
      case ServerFrame(f) => LimitedServer(t, f, n);
      case _ =>
    }
  }

  lemma EndedStep(t: RelayState, i: Input)
    requires t.ending != Running
    ensures var t' := Step(t, i); t'.held == t.held && t'.toClient == t.toClient && t'.ending == t.ending
  {
  }

  lemma TruncatingNext(r: RelayState, t: RelayState, t': RelayState, i: Input, limit: nat, sent: seq<Frame>)
    requires Truncating(r, t, limit, sent)
    requires if t.ending == Running then Undisturbing(t, t', i, limit - Rows(sent))
             else t'.held == t.held && t'.toClient == t.toClient && t'.ending == t.ending
    ensures Truncating(r, t', limit, sent + if i.ServerFrame? then [i.frame] else [])
  {
    assert sent + [] == sent;
    if i.ServerFrame? {
      if t.ending == Running {
        LimitedKeepsTruncating(r, t, t', limit, sent, Arrival(t.clock, i.frame));
      } else {
        CutStaysTruncating(r, t, t', limit, sent, i.frame);
      }
    }
  }

  lemma TruncatingStep(r: RelayState, t: RelayState, i: Input, limit: nat, sent: seq<Frame>)
    requires Truncating(r, t, limit, sent) && Undisturbed(t, i)
    ensures Truncating(r, Step(t, i), limit, sent + if i.ServerFrame? then [i.frame] else [])
  {
    if t.ending == Running {
      UndisturbedStep(t, i, limit - Rows(sent));
    } else {
      EndedStep(t, i);
    }
    TruncatingNext(r, t, Step(t, i), i, limit, sent);
  }

  /** A RowDescription arms a limit and is itself delivered. */
  lemma Armed(r: RelayState, f: Frame, limit: nat)
    requires r.ending == Running && r.held == [] && f.tag == UPPER_T
    requires var fired := ServerFired(r, f); Limit(r.limit, fired) == Some(limit) && !Suppresses(fired) && !Disconnects(fired)
    ensures var r' := Step(r, ServerFrame(f));
            && r'.ending == Running && r'.held == [] && r'.limit == Some(limit)
            && r'.toClient == r.toClient + [Arrival(r.clock, f)]
  {
    NoteKeeps(r, Backend(r.observer, ReadServer(f)), BackendEvents(r.observer, ReadServer(f)));
    DescriptionIsNotGated(r, f);
    ArmedConclude(ServerNoted(r, f), f);
  }

  lemma DescriptionIsNotGated(r: RelayState, f: Frame)
    requires f.tag == UPPER_T
    ensures !Gated(r, f)
  {
  }

  lemma ArmedConclude(r: RelayState, f: Frame)
    requires r.ending == Running && r.held == [] && f.tag == UPPER_T
    ensures Conclude(r, f, false, false, false) == r.(toClient := r.toClient + [Arrival(r.clock, f)])
  {
  }

  /** Exact truncation: from a RowDescription that arms a limit, as long as nothing but delays fires and
      nothing is gated, the client gets exactly the first `limit` rows and everything else up to the cut; the
      connection is cut exactly when the last allowed row (the first, if none is allowed) has arrived. */
  lemma ExactTruncation(r: RelayState, f: Frame, inputs: seq<Input>, limit: nat)
    requires r.ending == Running && r.held == [] && f.tag == UPPER_T
    requires var fired := ServerFired(r, f); Limit(r.limit, fired) == Some(limit) && !Suppresses(fired) && !Disconnects(fired)
    requires AllUndisturbed(Step(r, ServerFrame(f)), inputs)
    ensures var armed := Step(r, ServerFrame(f));
            var r' := Relayed(armed, inputs);
            var sent := FromServer(inputs);
            && armed.toClient == r.toClient + [Arrival(r.clock, f)] && armed.toClient <= r'.toClient
            && var given := Given(armed, r');
            && Rows(given) == (if Rows(sent) < limit then Rows(sent) else limit)
            && (if Rows(sent) < Fatal(limit) then r'.ending == Running && given == sent
                else r'.ending == RowsCut && CutAt(limit, sent, given))
  {
    Armed(r, f, limit);
    TruncatingRun(Step(r, ServerFrame(f)), inputs, limit);
  }

  // ---- rows behind the gate ---------------------------------------------------

  predicate AllCalm(r: RelayState, inputs: seq<Input>) {
    if inputs == [] then true
    else AllCalm(r, inputs[..|inputs| - 1]) && Calm(Relayed(r, inputs[..|inputs| - 1]), inputs[|inputs| - 1])
  }

  /** The bytes of a sequence of frames. */
  function Bulk(fs: seq<Frame>): nat {
    if fs == [] then 0 else Bulk(fs[..|fs| - 1]) + Size(fs[|fs| - 1])
  }

  lemma BulkNext(fs: seq<Frame>, f: Frame)
    ensures Bulk(fs + [f]) == Bulk(fs) + Size(f)
  {
    assert (fs + [f])[..|fs|] == fs;
  }

  /** The state reached once the gate has closed in `r`, with `limit` more rows allowed, after the server's
      frames `sent` from the gated one on. */
  predicate BehindGate(r: RelayState, r': RelayState, limit: nat, sent: seq<Frame>) {
    && r'.toClient == r.toClient
    && (match r'.ending
        case Running =>
          && r'.held != [] && r'.limit == Some(limit - Rows(sent)) && Rows(sent) < Fatal(limit)
          && r'.heldSize == r.heldSize + Bulk(sent)
        case RowsCut => Rows(sent) >= Fatal(limit)
        case GateOverflow => r.heldSize + Bulk(sent) > GATE_LIMIT
        case _ => false)
  }

  /** One server frame while the gate is closed. */
  predicate HeldStep(r: RelayState, r': RelayState, f: Frame, n: nat) {
    var row := f.tag == UPPER_D;
    && r'.toClient == r.toClient
    && (if row && n == 0 then r'.ending == RowsCut
        else if r.heldSize + Size(f) > GATE_LIMIT then r'.ending == GateOverflow
        else if row && n == 1 then r'.ending == RowsCut
        else r'.ending == Running && r'.held != [] && r'.heldSize == r.heldSize + Size(f) &&
             r'.limit == Some(if row then n - 1 else n))
  }

  lemma HeldConclude(r: RelayState, f: Frame, gate: bool, n: nat)
    requires r.ending == Running && (gate || r.held != []) && r.limit == Some(n) && f.tag != UPPER_Z
    ensures HeldStep(r, Conclude(r, f, gate, false, false), f, n)
  {
  }

  lemma HeldServer(r: RelayState, f: Frame, n: nat)
    requires r.ending == Running && (Gated(r, f) || r.held != []) && r.limit == Some(n)
    requires AllInert(ServerFired(r, f)) && f.tag != UPPER_Z
    ensures HeldStep(r, OnServer(r, f), f, n)
  {
    NoteKeeps(r, Backend(r.observer, ReadServer(f)), BackendEvents(r.observer, ReadServer(f)));
    InertDoesNothing(r.limit, ServerFired(r, f));
    HeldConclude(ServerNoted(r, f), f, Gated(r, f), n);
  }

  lemma GateCloses(r: RelayState, r': RelayState, f: Frame, n: nat)
    requires HeldStep(r, r', f, n) && f.tag != UPPER_D
    ensures BehindGate(r, r', n, [f])
  {
    RowsNext([], f);
    BulkNext([], f);
    assert [] + [f] == [f];
  }

  lemma BehindGateServer(r: RelayState, t: RelayState, t': RelayState, limit: nat, sent: seq<Frame>, f: Frame)
    requires BehindGate(r, t, limit, sent)
    requires if t.ending == Running then HeldStep(t, t', f, limit - Rows(sent))
             else t'.toClient == t.toClient && t'.ending == t.ending
    ensures BehindGate(r, t', limit, sent + [f])
  {
    RowsNext(sent, f);
    BulkNext(sent, f);
  }

  /** What the client sees of a calm step while the gate is closed. */
  predicate HeldCalm(t: RelayState, t': RelayState, i: Input, n: nat) {
    match i
    case ServerFrame(f) => HeldStep(t, t', f, n)
    case _ => t'.held == t.held && t'.heldSize == t.heldSize && t'.toClient == t.toClient && t'.limit == t.limit &&
              t'.ending == Running
  }

  lemma HeldCalmStep(t: RelayState, i: Input, n: nat)
    requires t.ending == Running && t.held != [] && t.limit == Some(n) && Calm(t, i)
    ensures HeldCalm(t, Step(t, i), i, n)
  {
    match i {
      case ClientFrame(f, m) =>
        LimitedClient(t, f, m);
        ClientShape(t, f, m);
      case ServerFrame(f) => HeldServer(t, f, n);
      case _ =>
    }
  }

  lemma BehindGateNext(r: RelayState, t: RelayState, t': RelayState, i: Input, limit: nat, sent: seq<Frame>)
    requires BehindGate(r, t, limit, sent)
    requires if t.ending == Running then HeldCalm(t, t', i, limit - Rows(sent))
             else t'.toClient == t.toClient && t'.ending == t.ending
    ensures BehindGate(r, t', limit, sent + if i.ServerFrame? then [i.frame] else [])
  {
    assert sent + [] == sent;
    if i.ServerFrame? {
      BehindGateServer(r, t, t', limit, sent, i.frame);
    }
  }

  lemma BehindGateStep(r: RelayState, t: RelayState, i: Input, limit: nat, sent: seq<Frame>)
    requires BehindGate(r, t, limit, sent) && Calm(t, i)
    ensures BehindGate(r, Step(t, i), limit, sent + if i.ServerFrame? then [i.frame] else [])
  {
    if t.ending == Running {
      HeldCalmStep(t, i, limit - Rows(sent));
    } else {
      EndedStep(t, i);
    }
    BehindGateNext(r, t, Step(t, i), i, limit, sent);
  }

  lemma {:induction false} BehindGateRun(r: RelayState, t: RelayState, inputs: seq<Input>, limit: nat, sent: seq<Frame>)
    requires BehindGate(r, t, limit, sent) && AllCalm(t, inputs)
    ensures BehindGate(r, Relayed(t, inputs), limit, sent + FromServer(inputs))
  {
    if inputs == [] {
      assert sent + [] == sent;
    } else {
      var front, i := inputs[..|inputs| - 1], inputs[|inputs| - 1];
      BehindGateRun(r, t, front, limit, sent);
      BehindGateStep(r, Relayed(t, front), i, limit, sent + FromServer(front));
      var now := if i.ServerFrame? then [i.frame] else [];
      assert (sent + FromServer(front)) + now == sent + (FromServer(front) + now);
    }
  }

  /** What the client has of the rows `before` the gate and `after` it, and when the connection is cut. */
  predicate RowsBehindTheGate(r: RelayState, t: RelayState, r': RelayState, limit: nat, before: seq<Frame>, after: seq<Frame>) {
    var rows := Rows(before) + Rows(after);
    && r.toClient <= r'.toClient && Given(r, r') == before
    && (r'.ending == GateOverflow ==> t.heldSize + Bulk(after) > GATE_LIMIT)
    && (r'.ending != GateOverflow ==>
          r'.ending == (if rows >= Fatal(limit) then RowsCut else Running) &&
          (rows < Fatal(limit) ==> r'.limit == Some(limit - rows)))
  }

  /** A limit and a closed gate: of the rows allowed the client has only those that came before the gated
      frame. The rows behind it count, and the one that uses up the limit loses all of them; until then, as long
      as they fit, they wait for the ReadyForQuery. */
  lemma TruncationBehindTheGate(r: RelayState, before: seq<Input>, t: RelayState, f: Frame, held: RelayState,
                                after: seq<Input>, limit: nat, sent: seq<Frame>, rest: seq<Frame>)
    requires r.ending == Running && r.held == [] && r.limit == Some(limit) && AllUndisturbed(r, before)
    requires t == Relayed(r, before) && t.ending == Running && Gated(t, f) && AllInert(ServerFired(t, f))
    requires held == Step(t, ServerFrame(f)) && AllCalm(held, after)
    requires sent == FromServer(before) && rest == [f] + FromServer(after)
    ensures RowsBehindTheGate(r, t, Relayed(held, after), limit, sent, rest)
  {
    var left := BeforeTheGate(r, before, t, limit, sent);
    AfterTheGate(t, f, held, after, left, rest);
    CountBehindTheGate(r, t, Relayed(held, after), limit, left, sent, rest);
  }

  lemma BeforeTheGate(r: RelayState, before: seq<Input>, t: RelayState, limit: nat, sent: seq<Frame>) returns (left: nat)
    requires r.ending == Running && r.held == [] && r.limit == Some(limit) && AllUndisturbed(r, before)
    requires t == Relayed(r, before) && t.ending == Running && sent == FromServer(before)
    ensures t.limit == Some(left) && Before(r, t, limit, left, sent)
  {
    TruncatingRun(r, before, limit);
    left := StillLimited(r, t, limit, sent);
  }

  /** With `left` rows still allowed, the client has everything sent so far. */
  predicate Before(r: RelayState, t: RelayState, limit: nat, left: nat, sent: seq<Frame>) {
    left + Rows(sent) == limit && Rows(sent) < Fatal(limit) && r.toClient <= t.toClient && Given(r, t) == sent
  }

  lemma AfterTheGate(t: RelayState, f: Frame, held: RelayState, after: seq<Input>, limit: nat, rest: seq<Frame>)
    requires t.ending == Running && t.limit == Some(limit) && Gated(t, f) && AllInert(ServerFired(t, f))
    requires held == Step(t, ServerFrame(f)) && AllCalm(held, after) && rest == [f] + FromServer(after)
    ensures BehindGate(t, Relayed(held, after), limit, rest)
  {
    GateClosed(t, f, limit);
    BehindGateRun(t, held, after, limit, [f]);
  }

  lemma StillLimited(r: RelayState, t: RelayState, limit: nat, sent: seq<Frame>) returns (left: nat)
    requires Truncating(r, t, limit, sent) && t.ending == Running
    ensures t.limit == Some(left) && Before(r, t, limit, left, sent)
  {
    left := t.limit.value;
  }

  lemma GateClosed(t: RelayState, f: Frame, limit: nat)
    requires t.ending == Running && t.limit == Some(limit) && Gated(t, f) && AllInert(ServerFired(t, f))
    ensures BehindGate(t, Step(t, ServerFrame(f)), limit, [f])
  {
    GatedIsCompletion(t, f);
    HeldServer(t, f, limit);
    GateCloses(t, Step(t, ServerFrame(f)), f, limit);
  }

  lemma CountBehindTheGate(r: RelayState, t: RelayState, r': RelayState, limit: nat, left: nat, before: seq<Frame>, after: seq<Frame>)
    requires Before(r, t, limit, left, before) && BehindGate(t, r', left, after)
    ensures RowsBehindTheGate(r, t, r', limit, before, after)
  {
  }

  lemma GatedIsCompletion(r: RelayState, f: Frame)
    requires Gated(r, f)
    ensures f.tag == UPPER_C
  {
  }

  /** After the cut nothing is delivered, whatever comes. */
  lemma NothingAfterCut(r: RelayState, inputs: seq<Input>)
    requires r.ending == RowsCut
    ensures Relayed(r, inputs).toClient == r.toClient && Relayed(r, inputs).ending == RowsCut
  {
    ClientLog.EndedForGood(r, inputs);
  }

  // ---- where a limit comes from ---------------------------------------------

  predicate AllLoadable(ms: seq<MatcherState>) {
    forall q :: 0 <= q < |ms| ==> Valid(ms[q].scenario)
  }

  lemma {:induction false} FiredOnWaitedFor(ms: seq<MatcherState>, e: Event, s: Scenario)
    requires s in FiredOn(ms, e) && AllLoadable(ms)
    ensures Valid(s) && s.when.event == e.name
  {
    var last := ms[|ms| - 1];
    if !(Fires(last, e) && s == last.scenario) {
      FiredOnWaitedFor(ms[..|ms| - 1], e, s);
    }
  }

  lemma {:induction false} FiredWaitedFor(ms: seq<MatcherState>, es: seq<Event>, s: Scenario)
    requires s in Fired(ms, es) && AllLoadable(ms)
    ensures Valid(s) && exists n :: 0 <= n < |es| && es[n].name == s.when.event
    decreases |es|
  {
    var init, e := es[..|es| - 1], es[|es| - 1];
    if s in FiredOn(Applied(ms, init), e) {
      AppliedLoadable(ms, init);
      FiredOnWaitedFor(Applied(ms, init), e, s);
    } else {
      FiredWaitedFor(ms, init, s);
      var n :| 0 <= n < |init| && init[n].name == s.when.event;
      assert es[n].name == s.when.event;
    }
  }

  lemma {:induction false} AppliedLoadable(ms: seq<MatcherState>, es: seq<Event>)
    requires AllLoadable(ms)
    ensures AllLoadable(Applied(ms, es))
    decreases |es|
  {
    if es != [] {
      AppliedLoadable(ms, es[..|es| - 1]);
    }
  }

  lemma {:induction false} LimitFromFired(limit: Option<nat>, fired: seq<Scenario>)
    requires Limit(limit, fired) != limit
    ensures exists s :: s in fired && s.action.truncate.Some?
  {
    if fired[|fired| - 1].action.truncate.Some? {
      assert fired[|fired| - 1] in fired;
    } else {
      LimitFromFired(limit, fired[..|fired| - 1]);
    }
  }

  lemma ResultStartedName(s: State, x: Runs.Seen, n: nat)
    requires n < |Runs.NamesOf(s, x)| && Runs.NamesOf(s, x)[n].ResultStarted?
    ensures x.FromServer? && x.reply.RowDescription?
  {
  }

  lemma DescriptionTag(f: Frame)
    ensures ReadServer(f).RowDescription? <==> f.tag == UPPER_T
  {
  }

  /** A result starts only at a RowDescription. */
  lemma ResultStartsAtDescription(r: RelayState, i: Input, n: nat)
    requires n < |EventsAt(r, i)| && EventsAt(r, i)[n].name.ResultStarted?
    ensures i.ServerFrame? && i.frame.tag == UPPER_T
  {
    var x := SeenAt(r, i)[0];
    Runs.StepShape(r.observer, x);
    ResultStartedName(r.observer, x, n);
    DescriptionTag(i.frame);
  }

  lemma FiredLimit(limit: Option<nat>, ms: seq<MatcherState>, es: seq<Event>) returns (n: nat)
    requires AllLoadable(ms) && Limit(limit, Fired(ms, es)) != limit
    ensures n < |es| && es[n].name.ResultStarted?
  {
    LimitFromFired(limit, Fired(ms, es));
    var s :| s in Fired(ms, es) && s.action.truncate.Some?;
    FiredWaitedFor(ms, es, s);
    n :| 0 <= n < |es| && es[n].name == s.when.event;
  }

  lemma LimitAfter(r: RelayState, i: Input)
    requires Step(r, i).limit.Some?
    ensures r.limit.Some? || Limit(r.limit, Fired(r.matchers, EventsAt(r, i))) != r.limit
  {
    if r.ending == Running {
      match i {
        case ClientFrame(f, m) => ClientShape(r, f, m);
        case ServerFrame(f) =>
          NoteKeeps(r, Backend(r.observer, ReadServer(f)), BackendEvents(r.observer, ReadServer(f)));
          ConcludeLimit(ServerNoted(r, f), f, Gated(r, f), Suppresses(ServerFired(r, f)), Disconnects(ServerFired(r, f)));
        case _ =>
      }
    }
  }

  lemma ConcludeLimit(r: RelayState, f: Frame, gate: bool, suppress: bool, disconnect: bool)
    ensures Conclude(r, f, gate, suppress, disconnect).limit.Some? ==> r.limit.Some?
  {
  }

  /** With scenarios that passed validation, a row limit is only ever set by a RowDescription. */
  lemma LimitsStartAtRowDescription(r: RelayState, i: Input)
    requires AllLoadable(r.matchers) && r.limit.None? && Step(r, i).limit.Some?
    ensures i.ServerFrame? && i.frame.tag == UPPER_T
    ensures AllLoadable(Step(r, i).matchers)
  {
    LimitAfter(r, i);
    var n := FiredLimit(r.limit, r.matchers, EventsAt(r, i));
    ResultStartsAtDescription(r, i, n);
    StepShape(r, i);
    AppliedLoadable(r.matchers, EventsAt(r, i));
  }
}
