/** From a recorded fault back to its moment: what the trace of a run says, and what its replay does. */
module ReplayFidelity {
  import opened Base
  import opened Events
  import opened Observer
  import opened Scenarios
  import opened Traces
  import opened Relay
  import opened RelayRuns
  import opened Faults
  import Runs
  import Coordinates

  /** Side by side, each matcher runs on its own. */
  lemma {:induction false} AppliedIsEach(ms: seq<MatcherState>, es: seq<Event>, q: nat)
    requires q < |ms|
    ensures Applied(ms, es)[q] == ObserveEach(ms[q], es)
    decreases |es|
  {
    if es != [] {
      AppliedIsEach(ms, es[..|es| - 1], q);
    }
  }

  /** The fault is the firing of matcher `q` at event `k`. */
  predicate Origin(x: Record, ms: seq<MatcherState>, es: seq<Event>, q: nat, k: nat) {
    x.Fault? && q < |ms| && k < |es| && x.coordinate == es[k] && x.scenario == ms[q].scenario && FiresAt(ms[q], es, k)
  }

  /** Every fault in the trace is a firing. */
  ghost predicate FaultsAreFirings(trace: seq<Record>, ms: seq<MatcherState>, es: seq<Event>) {
    forall p :: 0 <= p < |trace| && trace[p].Fault? ==> exists q: nat, k: nat :: Origin(trace[p], ms, es, q, k)
  }

  /** Every firing is a fault in the trace. */
  ghost predicate FiringsAreFaults(trace: seq<Record>, ms: seq<MatcherState>, es: seq<Event>) {
    forall q: nat, k: nat :: q < |ms| && FiresAt(ms[q], es, k) ==> Fault(es[k], ms[q].scenario) in trace
  }

  lemma FiresAtExtends(m: MatcherState, es: seq<Event>, more: seq<Event>, k: nat)
    requires k < |es|
    ensures FiresAt(m, es + more, k) <==> FiresAt(m, es, k)
  {
    assert (es + more)[..k] == es[..k] && (es + more)[k] == es[k];
  }

  lemma FiresAtLast(m: MatcherState, es: seq<Event>, e: Event)
    ensures FiresAt(m, es + [e], |es|) <==> Fires(ObserveEach(m, es), e)
  {
    assert (es + [e])[..|es|] == es && (es + [e])[|es|] == e;
  }

  /** The scenarios that fire on an event are those of the matchers that fire. */
  lemma {:induction false} FiredOnWho(ms: seq<MatcherState>, e: Event, s: Scenario) returns (q: nat)
    requires s in FiredOn(ms, e)
    ensures q < |ms| && Fires(ms[q], e) && ms[q].scenario == s
  {
    if Fires(ms[|ms| - 1], e) && ms[|ms| - 1].scenario == s {
      q := |ms| - 1;
    } else {
      q := FiredOnWho(ms[..|ms| - 1], e, s);
    }
  }

  lemma OldOrigin(x: Record, ms: seq<MatcherState>, es: seq<Event>, e: Event)
    requires exists q: nat, k: nat :: Origin(x, ms, es, q, k)
    ensures exists q: nat, k: nat :: Origin(x, ms, es + [e], q, k)
  {
    var q: nat, k: nat :| Origin(x, ms, es, q, k);
    FiresAtExtends(ms[q], es, [e], k);
    assert Origin(x, ms, es + [e], q, k);
  }

  lemma NewOrigin(s: Scenario, ms: seq<MatcherState>, es: seq<Event>, e: Event)
    requires s in FiredOn(Applied(ms, es), e)
    ensures exists q: nat, k: nat :: Origin(Fault(e, s), ms, es + [e], q, k)
  {
    var q := FiredOnWho(Applied(ms, es), e, s);
    AppliedIsEach(ms, es, q);
    ObserveEachKeeps(ms[q], es);
    FiresAtLast(ms[q], es, e);
    assert Origin(Fault(e, s), ms, es + [e], q, |es|);
  }

  lemma FaultsAreFiringsNext(trace: seq<Record>, ms: seq<MatcherState>, es: seq<Event>, e: Event)
    requires FaultsAreFirings(trace, ms, es)
    ensures FaultsAreFirings(trace + RecordsOn(e, FiredOn(Applied(ms, es), e)), ms, es + [e])
  {
    var fired := FiredOn(Applied(ms, es), e);
    var all := trace + RecordsOn(e, fired);
    forall p | 0 <= p < |all| && all[p].Fault?
      ensures exists q: nat, k: nat :: Origin(all[p], ms, es + [e], q, k)
    {
      if p < |trace| {
        OldOrigin(trace[p], ms, es, e);
      } else {
        var s := fired[p - |trace| - 1];
        assert all[p] == Fault(e, s);
        NewOrigin(s, ms, es, e);
      }
    }
  }

  lemma FiringsAreFaultsNext(trace: seq<Record>, ms: seq<MatcherState>, es: seq<Event>, e: Event)
    requires FiringsAreFaults(trace, ms, es)
    ensures FiringsAreFaults(trace + RecordsOn(e, FiredOn(Applied(ms, es), e)), ms, es + [e])
  {
    var fired := FiredOn(Applied(ms, es), e);
    var all := trace + RecordsOn(e, fired);
    forall q: nat, k: nat | q < |ms| && FiresAt(ms[q], es + [e], k)
      ensures Fault((es + [e])[k], ms[q].scenario) in all
    {
      if k < |es| {
        FiresAtExtends(ms[q], es, [e], k);
      } else {
        FiresAtLast(ms[q], es, e);
        AppliedIsEach(ms, es, q);
        ObserveEachKeeps(ms[q], es);
        WhoIsFiredOn(Applied(ms, es), e, q);
        var n :| 0 <= n < |fired| && fired[n] == ms[q].scenario;
        assert FaultRecords(e, fired)[n] == Fault(e, ms[q].scenario);
        assert all[|trace| + 1 + n] == Fault(e, ms[q].scenario);
      }
    }
  }

  /** The trace and the firings agree. */
  ghost predicate Agree(trace: seq<Record>, ms: seq<MatcherState>, es: seq<Event>) {
    FaultsAreFirings(trace, ms, es) && FiringsAreFaults(trace, ms, es)
  }

  lemma AgreeNext(trace: seq<Record>, ms: seq<MatcherState>, es: seq<Event>, e: Event)
    requires Agree(trace, ms, es)
    ensures Agree(trace + RecordsOn(e, FiredOn(Applied(ms, es), e)), ms, es + [e])
  {
    FaultsAreFiringsNext(trace, ms, es, e);
    FiringsAreFaultsNext(trace, ms, es, e);
  }

  lemma Regroup(es: seq<Event>, now: seq<Event>)
    requires now != []
    ensures (es + now[..|now| - 1]) + [now[|now| - 1]] == es + now
  {
  }

  lemma Associate(a: seq<Record>, b: seq<Record>, c: seq<Record>)
    ensures (a + b) + c == a + (b + c)
  {
  }

  lemma {:induction false} AgreeExtends(trace: seq<Record>, ms: seq<MatcherState>, es: seq<Event>, now: seq<Event>)
    requires Agree(trace, ms, es)
    ensures Agree(trace + Recorded(Applied(ms, es), now), ms, es + now)
    decreases |now|
  {
    if now == [] {
      assert trace + [] == trace && es + now == es;
    } else {
      var init, e := now[..|now| - 1], now[|now| - 1];
      AgreeExtends(trace, ms, es, init);
      AppliedAppend(ms, es, init);
      var before := Recorded(Applied(ms, es), init);
      AgreeNext(trace + before, ms, es + init, e);
      Regroup(es, now);
      Associate(trace, before, RecordsOn(e, FiredOn(Applied(ms, es + init), e)));
    }
  }

  lemma AgreeIgnores(trace: seq<Record>, ms: seq<MatcherState>, es: seq<Event>, x: Record)
    requires Agree(trace, ms, es) && !x.Fault?
    ensures Agree(trace + [x], ms, es)
  {
  }

  lemma AgreeStep(ms: seq<MatcherState>, t: RelayState, i: Input, es: seq<Event>)
    requires Agree(t.trace, ms, es) && t.matchers == Applied(ms, es)
    ensures Agree(Step(t, i).trace, ms, es + EventsAt(t, i))
  {
    var now := EventsAt(t, i);
    StepShape(t, i);
    AgreeExtends(t.trace, ms, es, now);
    AgreeIgnores(t.trace + Recorded(t.matchers, now), ms, es + now, Lifecycle(Step(t, i).observer.id, "result.truncated"));
  }

  /** On every run the faults in the trace are exactly the moments at which the scenarios, each run by itself
      over the recorded events, fire. */
  lemma {:induction false} TraceAgrees(r: RelayState, inputs: seq<Input>)
    requires Agree(r.trace, r.matchers, []) && EventsIn(r.trace) == []
    ensures Agree(Relayed(r, inputs).trace, r.matchers, EventsIn(Relayed(r, inputs).trace))
    ensures Relayed(r, inputs).matchers == Applied(r.matchers, EventsIn(Relayed(r, inputs).trace))
  {
    if inputs != [] {
      var front, i := inputs[..|inputs| - 1], inputs[|inputs| - 1];
      var t := Relayed(r, front);
      TraceAgrees(r, front);
      TraceAgreesStep(r.matchers, t, i);
    }
  }

  lemma TraceAgreesStep(ms: seq<MatcherState>, t: RelayState, i: Input)
    requires Agree(t.trace, ms, EventsIn(t.trace)) && t.matchers == Applied(ms, EventsIn(t.trace))
    ensures Agree(Step(t, i).trace, ms, EventsIn(Step(t, i).trace))
    ensures Step(t, i).matchers == Applied(ms, EventsIn(Step(t, i).trace))
  {
    TraceNext(t, i);
    AgreeStep(ms, t, i, EventsIn(t.trace));
    StepShape(t, i);
    AppliedAppend(ms, EventsIn(t.trace), EventsAt(t, i));
  }

  lemma StartAgrees(id: nat, startup: Startup, scenarios: seq<Scenario>)
    ensures var r := Connected(id, startup, scenarios);
            Agree(r.trace, r.matchers, []) && EventsIn(r.trace) == []
  {
    EventsInOne(Lifecycle(id, "startup"));
  }

  // ---- replay -------------------------------------------------------------

  predicate NoEarlierHit(s: Scenario, es: seq<Event>, k: nat)
    requires k <= |es|
  {
    forall j :: 0 <= j < k ==> !Hits(s, es[j])
  }

  /** A fault, replayed alone over the same events: it fires at the recorded moment or before, and exactly
      there if nothing earlier has that coordinate. */
  lemma ReplayOver(es: seq<Event>, s: Scenario, k: nat) returns (i: nat)
    requires FiresAt(Fresh(s), es, k)
    ensures i <= k && FiresAt(Fresh(Rebuild(es[k], s)), es, i)
    ensures es[i].name == es[k].name && es[i].cycle == es[k].cycle && es[i].statementIndex == es[k].statementIndex
    ensures i == k <==> NoEarlierHit(Rebuild(es[k], s), es, k)
    ensures Coordinates.PointsUnique(es) && Coordinates.Pinpoints(es[k]) ==> i == k
  {
    ObserveEachKeeps(Fresh(s), es[..k]);
    RebuildHits(es[k], s);
    i := FirstHitFires(Rebuild(es[k], s), es, k);
    ObserveEachKeeps(Fresh(Rebuild(es[k], s)), es[..i]);
    RebuildHitsOnly(es[k], s, es[i]);
    assert Coordinates.SamePoint(es[i], es[k]);
  }

  lemma RecordedPointsUnique(id: nat, startup: Startup, scenarios: seq<Scenario>, inputs: seq<Input>)
    ensures Coordinates.PointsUnique(EventsIn(Relayed(Connected(id, startup, scenarios), inputs).trace))
    ensures NoRowZero(EventsIn(Relayed(Connected(id, startup, scenarios), inputs).trace))
  {
    var r := Connected(id, startup, scenarios);
    var xs := SeenIn(r, inputs);
    StartAgrees(id, startup, scenarios);
    RelayContainsObserverRun(r, inputs);
    Coordinates.PointsAreUnique(r.observer, xs);
    HistoryHasNoRowZero(r.observer, xs);
    assert [] + Runs.History(r.observer, xs) == Runs.History(r.observer, xs);
  }

  /** Fired alone, the two scenarios have the same consequences. */
  ghost predicate SameDeed(t: Scenario, s: Scenario) {
    && (Suppresses([t]) <==> Suppresses([s])) && (Disconnects([t]) <==> Disconnects([s]))
    && forall limit :: Limit(limit, [t]) == Limit(limit, [s])
  }

  lemma SameActionSameDeed(t: Scenario, s: Scenario)
    requires t.action == s.action
    ensures SameDeed(t, s)
  {
    assert [t][0] == t && [s][0] == s && [t][..0] == [] == [s][..0];
  }

  /** Replay fidelity: for every fault in the trace of a run, the scenario rebuilt from it fires, over the
      recorded events, at the recorded event or an earlier one with the same coordinate, never later. It is
      exactly that event if and only if no earlier one hits, as is always so when the coordinate pins it down.
      Then it does what the recorded scenario did. */
  lemma ReplayFiresAtTheSamePoint(id: nat, startup: Startup, scenarios: seq<Scenario>, inputs: seq<Input>, p: nat)
    returns (k: nat, i: nat)
    requires var trace := Relayed(Connected(id, startup, scenarios), inputs).trace;
             p < |trace| && trace[p].Fault?
    ensures var trace := Relayed(Connected(id, startup, scenarios), inputs).trace;
            var es := EventsIn(trace);
            var e, s := trace[p].coordinate, trace[p].scenario;
            && s in scenarios && k < |es| && es[k] == e && FiresAt(Fresh(s), es, k)
            && i <= k && FiresAt(Fresh(Rebuild(e, s)), es, i) && Coordinates.SamePoint(es[i], e)
            && (i == k <==> NoEarlierHit(Rebuild(e, s), es, k))
            && (Coordinates.Pinpoints(e) ==> i == k)
            && Replays(Rebuild(e, s), e, s) && SameDeed(Rebuild(e, s), s)
  {
    var r := Connected(id, startup, scenarios);
    var trace := Relayed(r, inputs).trace;
    StartAgrees(id, startup, scenarios);
    TraceAgrees(r, inputs);
    RecordedPointsUnique(id, startup, scenarios, inputs);
    k, i := ReplayTraced(scenarios, r.matchers, trace, p);
  }

  lemma ReplayTraced(scenarios: seq<Scenario>, ms: seq<MatcherState>, trace: seq<Record>, p: nat) returns (k: nat, i: nat)
    requires |ms| == |scenarios| && forall q :: 0 <= q < |ms| ==> ms[q] == Fresh(scenarios[q])
    requires FaultsAreFirings(trace, ms, EventsIn(trace)) && Coordinates.PointsUnique(EventsIn(trace))
    requires p < |trace| && trace[p].Fault?
    ensures var es := EventsIn(trace);
            var e, s := trace[p].coordinate, trace[p].scenario;
            && s in scenarios && k < |es| && es[k] == e && FiresAt(Fresh(s), es, k)
            && i <= k && FiresAt(Fresh(Rebuild(e, s)), es, i) && Coordinates.SamePoint(es[i], e)
            && (i == k <==> NoEarlierHit(Rebuild(e, s), es, k))
            && (Coordinates.Pinpoints(e) ==> i == k)
            && Replays(Rebuild(e, s), e, s) && SameDeed(Rebuild(e, s), s)
  {
    var es := EventsIn(trace);
    var q: nat, n: nat :| Origin(trace[p], ms, es, q, n);
    k := n;
    i := ReplayOver(es, trace[p].scenario, k);
    SameActionSameDeed(Rebuild(es[k], trace[p].scenario), trace[p].scenario);
  }

  // ---- replay always loads ------------------------------------------------

  predicate NoRowZero(es: seq<Event>) {
    forall i :: 0 <= i < |es| ==> es[i].row != Some(0)
  }

  lemma RowsAreCounted(s: State, m: ServerMessage, n: nat)
    requires n < |ServerNames(Before(s, m), m)| && ServerNames(Before(s, m), m)[n].ResultRow?
    ensures Before(s, m).cycles != [] ==> Before(s, m).cycles[0].rows > 0
  {
  }

  lemma ClientHasNoRows(s: State, x: Runs.Seen, n: nat)
    requires x.FromClient? && n < |Runs.NamesOf(s, x)|
    ensures !Runs.NamesOf(s, x)[n].ResultRow?
  {
  }

  lemma StepHasNoRowZero(s: State, x: Runs.Seen)
    ensures NoRowZero(Runs.EventsOf(s, x))
  {
    Runs.StepShape(s, x);
    forall n | 0 <= n < |Runs.EventsOf(s, x)|
      ensures Runs.EventsOf(s, x)[n].row != Some(0)
    {
      DescribedRow(s, x, Runs.EventsOf(s, x)[n], n);
    }
  }

  lemma DescribedRow(s: State, x: Runs.Seen, e: Event, n: nat)
    requires n < |Runs.NamesOf(s, x)| && e.name == Runs.NamesOf(s, x)[n] && Runs.Describes(e, Runs.Told(s, x), Runs.Side(x))
    ensures e.row != Some(0)
  {
    if x.FromClient? {
      ClientHasNoRows(s, x, n);
    } else if e.name.ResultRow? {
      RowsAreCounted(s, x.reply, n);
    }
  }

  /** Rows are counted before they are announced. */
  lemma {:induction false} HistoryHasNoRowZero(s: State, xs: seq<Runs.Seen>)
    ensures NoRowZero(Runs.History(s, xs))
  {
    if xs != [] {
      HistoryHasNoRowZero(s, xs[..|xs| - 1]);
      StepHasNoRowZero(Runs.Run(s, xs[..|xs| - 1]), xs[|xs| - 1]);
    }
  }

  lemma {:induction false} RebuiltLoads(trace: seq<Record>, ms: seq<MatcherState>, es: seq<Event>, n: nat)
    requires n <= |trace| && FaultsAreFirings(trace, ms, es) && NoRowZero(es)
    requires forall q :: 0 <= q < |ms| ==> Valid(ms[q].scenario)
    ensures AllValid(Rebuilt(trace[..n])) && |Rebuilt(trace[..n])| == |FaultsIn(trace[..n])|
    decreases n
  {
    if n > 0 {
      RebuiltLoads(trace, ms, es, n - 1);
      assert trace[..n][..n - 1] == trace[..n - 1];
      if trace[n - 1].Fault? {
        var q: nat, k: nat :| Origin(trace[n - 1], ms, es, q, k);
        ObserveEachKeeps(ms[q], es[..k]);
        RebuildIsValidIffRowIsNotZero(es[k], ms[q].scenario);
      }
    }
  }

  /** Replaying the trace of any run of loadable scenarios succeeds as soon as there is a fault in it. */
  lemma ReplayAlwaysLoads(id: nat, startup: Startup, scenarios: seq<Scenario>, inputs: seq<Input>)
    requires forall q :: 0 <= q < |scenarios| ==> Valid(scenarios[q])
    ensures var trace := Relayed(Connected(id, startup, scenarios), inputs).trace;
            AllValid(Rebuilt(trace)) && |Rebuilt(trace)| == |FaultsIn(trace)|
  {
    var r := Connected(id, startup, scenarios);
    var trace := Relayed(r, inputs).trace;
    StartAgrees(id, startup, scenarios);
    TraceAgrees(r, inputs);
    RecordedPointsUnique(id, startup, scenarios, inputs);
    RebuiltLoads(trace, r.matchers, EventsIn(trace), |trace|);
    assert trace[..|trace|] == trace;
  }
}
