/** The faults of a connection: how many there can be, and when there can be none. */
module Faults {
  import opened Events
  import opened Scenarios
  import opened Traces
  import opened Relay
  import opened RelayRuns
  import Reliability

  /** The scenarios of the faults in a trace. */
  function FaultsIn(trace: seq<Record>): seq<Scenario> {
    if trace == [] then []
    else FaultsIn(trace[..|trace| - 1]) +
         match trace[|trace| - 1]
         case Fault(_, s) => [s]
         case _ => []
  }

  lemma {:induction false} FaultsInAppend(a: seq<Record>, b: seq<Record>)
    ensures FaultsIn(a + b) == FaultsIn(a) + FaultsIn(b)
    decreases |b|
  {
    if b == [] {
      assert a + b == a;
    } else {
      assert (a + b)[..|a + b| - 1] == a + b[..|b| - 1];
      FaultsInAppend(a, b[..|b| - 1]);
    }
  }

  lemma FaultsInOne(x: Record)
    ensures FaultsIn([x]) == if x.Fault? then [x.scenario] else []
  {
    assert [x][..0] == [];
  }

  lemma {:induction false} FaultsInFaults(e: Event, fired: seq<Scenario>)
    ensures FaultsIn(FaultRecords(e, fired)) == fired
    decreases |fired|
  {
    if fired != [] {
      assert FaultRecords(e, fired)[..|fired| - 1] == FaultRecords(e, fired[..|fired| - 1]);
      FaultsInFaults(e, fired[..|fired| - 1]);
    }
  }

  lemma {:induction false} FaultsInRecorded(ms: seq<MatcherState>, es: seq<Event>)
    ensures FaultsIn(Recorded(ms, es)) == Fired(ms, es)
    decreases |es|
  {
    if es != [] {
      var init, e := es[..|es| - 1], es[|es| - 1];
      var fired := FiredOn(Applied(ms, init), e);
      FaultsInRecorded(ms, init);
      FaultsInOne(Semantic(e));
      FaultsInFaults(e, fired);
      FaultsInAppend([Semantic(e)], FaultRecords(e, fired));
      FaultsInAppend(Recorded(ms, init), RecordsOn(e, fired));
    }
  }

  /** The faults of one input are those its events fire. */
  lemma FaultsNext(r: RelayState, i: Input)
    ensures FaultsIn(Step(r, i).trace) == FaultsIn(r.trace) + Fired(r.matchers, EventsAt(r, i))
  {
    StepShape(r, i);
    var now := Recorded(r.matchers, EventsAt(r, i));
    var cut := Lifecycle(Step(r, i).observer.id, "result.truncated");
    FaultsInRecorded(r.matchers, EventsAt(r, i));
    FaultsInAppend(r.trace, now);
    FaultsInOne(cut);
    FaultsInAppend(r.trace + now, [cut]);
  }

  /** A matcher that fires is among the scenarios fired. */
  lemma {:induction false} WhoIsFiredOn(ms: seq<MatcherState>, e: Event, q: nat)
    requires q < |ms| && Fires(ms[q], e)
    ensures ms[q].scenario in FiredOn(ms, e)
  {
    if q < |ms| - 1 {
      WhoIsFiredOn(ms[..|ms| - 1], e, q);
    }
  }

  // ---- no more faults than scenarios --------------------------------------

  function FiredCount(ms: seq<MatcherState>): nat {
    if ms == [] then 0 else FiredCount(ms[..|ms| - 1]) + if ms[|ms| - 1].fired then 1 else 0
  }

  lemma {:induction false} FiredCountBound(ms: seq<MatcherState>)
    ensures FiredCount(ms) <= |ms|
  {
    if ms != [] {
      FiredCountBound(ms[..|ms| - 1]);
    }
  }

  lemma {:induction false} FiredOnCounts(ms: seq<MatcherState>, e: Event)
    ensures FiredCount(ObserveAll(ms, e)) == FiredCount(ms) + |FiredOn(ms, e)|
  {
    if ms != [] {
      FiredOnCounts(ms[..|ms| - 1], e);
      assert ObserveAll(ms, e)[..|ms| - 1] == ObserveAll(ms[..|ms| - 1], e);
    }
  }

  lemma {:induction false} FiredCounts(ms: seq<MatcherState>, es: seq<Event>)
    ensures FiredCount(Applied(ms, es)) == FiredCount(ms) + |Fired(ms, es)|
    decreases |es|
  {
    if es != [] {
      FiredCounts(ms, es[..|es| - 1]);
      FiredOnCounts(Applied(ms, es[..|es| - 1]), es[|es| - 1]);
    }
  }

  predicate FaultsCounted(r: RelayState) {
    |FaultsIn(r.trace)| == FiredCount(r.matchers)
  }

  lemma {:induction false} FaultsAreCounted(r: RelayState, inputs: seq<Input>)
    requires FaultsCounted(r)
    ensures FaultsCounted(Relayed(r, inputs)) && |Relayed(r, inputs).matchers| == |r.matchers|
  {
    if inputs != [] {
      var t, i := Relayed(r, inputs[..|inputs| - 1]), inputs[|inputs| - 1];
      FaultsAreCounted(r, inputs[..|inputs| - 1]);
      FaultsNext(t, i);
      StepShape(t, i);
      FiredCounts(t.matchers, EventsAt(t, i));
    }
  }

  lemma {:induction false} FreshUnfired(ms: seq<MatcherState>)
    requires forall i :: 0 <= i < |ms| ==> !ms[i].fired
    ensures FiredCount(ms) == 0
  {
    if ms != [] {
      FreshUnfired(ms[..|ms| - 1]);
    }
  }

  /** A connection never has more faults than scenarios. */
  lemma FaultsNeverExceedScenarios(id: nat, startup: Startup, scenarios: seq<Scenario>, inputs: seq<Input>)
    ensures |FaultsIn(Relayed(Connected(id, startup, scenarios), inputs).trace)| <= |scenarios|
  {
    var r := Connected(id, startup, scenarios);
    FreshUnfired(r.matchers);
    FaultsInOne(Lifecycle(id, "startup"));
    FaultsAreCounted(r, inputs);
    FiredCountBound(Relayed(r, inputs).matchers);
  }

  // ---- unreliable events --------------------------------------------------

  lemma {:induction false} UnreliableFiresNothingOn(ms: seq<MatcherState>, e: Event)
    requires !e.reliable
    ensures FiredOn(ms, e) == [] && ObserveAll(ms, e) == ms
  {
    if ms != [] {
      UnreliableFiresNothingOn(ms[..|ms| - 1], e);
    }
  }

  lemma {:induction false} UnreliableFiresNothing(ms: seq<MatcherState>, es: seq<Event>)
    requires Reliability.AllUnreliable(es)
    ensures Fired(ms, es) == [] && Applied(ms, es) == ms
    decreases |es|
  {
    if es != [] {
      UnreliableFiresNothing(ms, es[..|es| - 1]);
      UnreliableFiresNothingOn(ms, es[|es| - 1]);
    }
  }

  /** The observer rejects the acknowledgement that the input brings. */
  predicate MismatchAt(r: RelayState, i: Input) {
    exists x :: x in SeenAt(r, i) && Reliability.Mismatch(r.observer, x)
  }

  predicate DrainsAt(r: RelayState, i: Input) {
    exists x :: x in SeenAt(r, i) && Reliability.Drains(r.observer, x)
  }

  /** Nothing was counted and nothing fired between the two states. */
  predicate Untouched(r: RelayState, r': RelayState) {
    r'.matchers == r.matchers && FaultsIn(r'.trace) == FaultsIn(r.trace)
  }

  lemma UnreliableInput(r: RelayState, i: Input)
    requires !r.observer.reliable
    ensures Untouched(r, Step(r, i))
    ensures !DrainsAt(r, i) ==> !Step(r, i).observer.reliable
  {
    var xs := SeenAt(r, i);
    StepShape(r, i);
    FaultsNext(r, i);
    if xs != [] {
      assert xs[0] in xs && xs[..0] == [];
      Reliability.UnreliableStep(r.observer, xs[0]);
    }
    UnreliableFiresNothing(r.matchers, EventsAt(r, i));
  }

  lemma MismatchedInput(r: RelayState, i: Input)
    requires MismatchAt(r, i)
    ensures Untouched(r, Step(r, i)) && !Step(r, i).observer.reliable
  {
    var xs := SeenAt(r, i);
    StepShape(r, i);
    FaultsNext(r, i);
    assert xs == [xs[0]] && xs[..0] == [];
    Reliability.ReliableStep(r.observer, xs[0]);
    UnreliableFiresNothing(r.matchers, EventsAt(r, i));
  }

  lemma {:induction false} StaysUntouched(r: RelayState, inputs: seq<Input>)
    requires !r.observer.reliable
    requires forall k :: 0 <= k < |inputs| - 1 ==> !DrainsAt(Relayed(r, inputs[..k]), inputs[k])
    ensures Untouched(r, Relayed(r, inputs))
    ensures inputs != [] && !DrainsAt(Relayed(r, inputs[..|inputs| - 1]), inputs[|inputs| - 1]) ==>
              !Relayed(r, inputs).observer.reliable
  {
    if inputs != [] {
      var front := inputs[..|inputs| - 1];
      assert forall k :: 0 <= k <= |front| ==> front[..k] == inputs[..k];
      StaysUntouched(r, front);
      if front != [] {
        assert front[..|front| - 1] == inputs[..|front| - 1];
      }
      UnreliableInput(Relayed(r, front), inputs[|inputs| - 1]);
    }
  }

  /** From a mismatched acknowledgement up to and including the ReadyForQuery that empties the queue, no
      matcher counts or fires, whatever the two sides send. */
  lemma NoFaultAfterMismatch(r: RelayState, mismatch: Input, inputs: seq<Input>)
    requires MismatchAt(r, mismatch)
    requires forall k :: 0 <= k < |inputs| - 1 ==> !DrainsAt(Relayed(Step(r, mismatch), inputs[..k]), inputs[k])
    ensures Untouched(r, Relayed(Step(r, mismatch), inputs))
  {
    MismatchedInput(r, mismatch);
    StaysUntouched(Step(r, mismatch), inputs);
  }
}
