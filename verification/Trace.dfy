/** The recorded trace and its replay: crates/pgfault-trace/src/lib.rs. */
module Traces {
  import opened Base
  import opened Events
  import opened Scenarios

  datatype Record =
    | Semantic(event: Event)
    | Fault(coordinate: Event, scenario: Scenario)
    | Lifecycle(connection: nat, what: string)

  /** The scenario pinned to the coordinate at which it fired. */
  function Rebuild(e: Event, s: Scenario): Scenario {
    s.(selector := s.selector.(
         applicationName := e.startup.applicationName,
         user := e.startup.user,
         database := e.startup.database,
         transaction := Some(e.epoch),
         queryCycle := Some(e.cycle),
         statement := Some(e.statementIndex),
         fingerprint := Some(e.fingerprint)),
       when := s.when.(event := e.name, occurrence := Some(1), row := e.row))
  }

  /** One rebuilt scenario for each fault, in trace order. */
  function Rebuilt(trace: seq<Record>): seq<Scenario> {
    if trace == [] then []
    else
      Rebuilt(trace[..|trace| - 1]) +
      match trace[|trace| - 1]
      case Fault(e, s) => [Rebuild(e, s)]
      case _ => []
  }

  /** Each scenario once, where it first occurs. */
  function Deduplicate(xs: seq<Scenario>): seq<Scenario> {
    if xs == [] then []
    else
      var init := Deduplicate(xs[..|xs| - 1]);
      if xs[|xs| - 1] in init then init else init + [xs[|xs| - 1]]
  }

  predicate AllValid(xs: seq<Scenario>) {
    forall i :: 0 <= i < |xs| ==> Valid(xs[i])
  }

  datatype ReplayResult = Schedules(scenarios: seq<Scenario>) | Rejected(problem: Problem) | NoFaults

  lemma RebuiltNext(trace: seq<Record>, i: nat)
    requires i < |trace|
    ensures Rebuilt(trace[..i + 1]) ==
            Rebuilt(trace[..i]) + if trace[i].Fault? then [Rebuild(trace[i].coordinate, trace[i].scenario)] else []
  {
    assert trace[..i + 1][..i] == trace[..i];
  }

  lemma DeduplicateNext(xs: seq<Scenario>, x: Scenario)
    ensures Deduplicate(xs + [x]) == if x in Deduplicate(xs) then Deduplicate(xs) else Deduplicate(xs) + [x]
    ensures AllValid(xs + [x]) <==> AllValid(xs) && Valid(x)
  {
    assert (xs + [x])[..|xs|] == xs;
    assert (xs + [x])[|xs|] == x;
  }

  /** `xs[n]` is the first scenario that does not load. */
  predicate FirstProblem(xs: seq<Scenario>, n: nat, problem: Problem) {
    n < |xs| && AllValid(xs[..n]) && Validate(xs[n]) == Some(problem)
  }

  /** What a replayed scenario is: it does what the recorded one did, under the same name and for the same kinds
      and connection, and waits for the first event with the recorded coordinate. */
  predicate Replays(t: Scenario, e: Event, s: Scenario) {
    && t.version == s.version && t.name == s.name && t.action == s.action
    && t.selector.connectionOrdinal == s.selector.connectionOrdinal && t.when.kinds == s.when.kinds
    && t.selector.user == e.startup.user && t.selector.database == e.startup.database
    && t.selector.applicationName == e.startup.applicationName
    && t.selector.transaction == Some(e.epoch) && t.selector.queryCycle == Some(e.cycle)
    && t.selector.statement == Some(e.statementIndex) && t.selector.fingerprint == Some(e.fingerprint)
    && t.when.event == e.name && t.when.occurrence == Some(1) && t.when.row == e.row
  }

  /** The scenario replays some fault of the trace. */
  predicate ReplaysSome(t: Scenario, trace: seq<Record>) {
    exists p :: 0 <= p < |trace| && trace[p].Fault? && Replays(t, trace[p].coordinate, trace[p].scenario)
  }

  /** The fault is replayed by some scenario. */
  predicate ReplayedBySome(x: Record, ts: seq<Scenario>)
    requires x.Fault?
  {
    exists i :: 0 <= i < |ts| && Replays(ts[i], x.coordinate, x.scenario)
  }

  predicate HasFault(trace: seq<Record>) {
    exists p :: 0 <= p < |trace| && trace[p].Fault?
  }

  /** Faults and scenarios correspond. */
  predicate Corresponds(ts: seq<Scenario>, trace: seq<Record>) {
    && (forall i :: 0 <= i < |ts| ==> ReplaysSome(ts[i], trace))
    && (forall p :: 0 <= p < |trace| && trace[p].Fault? ==> ReplayedBySome(trace[p], ts))
  }

  lemma ReplaysSomeExtends(t: Scenario, front: seq<Record>, trace: seq<Record>)
    requires front <= trace && ReplaysSome(t, front)
    ensures ReplaysSome(t, trace)
  {
    var p :| 0 <= p < |front| && front[p].Fault? && Replays(t, front[p].coordinate, front[p].scenario);
    assert trace[p] == front[p];
  }

  lemma ReplayedBySomeExtends(x: Record, ts: seq<Scenario>, us: seq<Scenario>)
    requires ts <= us && x.Fault? && ReplayedBySome(x, ts)
    ensures ReplayedBySome(x, us)
  {
    var i :| 0 <= i < |ts| && Replays(ts[i], x.coordinate, x.scenario);
    assert us[i] == ts[i];
  }

  lemma RebuildReplays(e: Event, s: Scenario)
    ensures Replays(Rebuild(e, s), e, s)
  {
  }

  lemma {:induction false} RebuiltReplays(trace: seq<Record>, i: nat)
    requires i < |Rebuilt(trace)|
    ensures ReplaysSome(Rebuilt(trace)[i], trace)
  {
    var front, x := trace[..|trace| - 1], trace[|trace| - 1];
    if i < |Rebuilt(front)| {
      RebuiltReplays(front, i);
      ReplaysSomeExtends(Rebuilt(front)[i], front, trace);
    } else {
      RebuildReplays(x.coordinate, x.scenario);
      assert trace[|trace| - 1].Fault?;
    }
  }

  lemma {:induction false} FaultsAreReplayed(trace: seq<Record>, p: nat)
    requires p < |trace| && trace[p].Fault?
    ensures ReplayedBySome(trace[p], Rebuilt(trace))
  {
    var front, x := trace[..|trace| - 1], trace[|trace| - 1];
    if p < |front| {
      FaultsAreReplayed(front, p);
      ReplayedBySomeExtends(trace[p], Rebuilt(front), Rebuilt(trace));
    } else {
      RebuildReplays(x.coordinate, x.scenario);
      assert Rebuilt(trace)[|Rebuilt(front)|] == Rebuild(x.coordinate, x.scenario);
    }
  }

  lemma RebuiltCorresponds(trace: seq<Record>)
    ensures Corresponds(Rebuilt(trace), trace)
    ensures Rebuilt(trace) != [] <==> HasFault(trace)
  {
    forall i | 0 <= i < |Rebuilt(trace)|
      ensures ReplaysSome(Rebuilt(trace)[i], trace)
    {
      RebuiltReplays(trace, i);
    }
    forall p | 0 <= p < |trace| && trace[p].Fault?
      ensures ReplayedBySome(trace[p], Rebuilt(trace))
    {
      FaultsAreReplayed(trace, p);
    }
    if Rebuilt(trace) != [] {
      assert ReplaysSome(Rebuilt(trace)[0], trace);
    }
    if HasFault(trace) {
      var p :| 0 <= p < |trace| && trace[p].Fault?;
      assert ReplayedBySome(trace[p], Rebuilt(trace));
    }
  }

  lemma ReplayCorresponds(trace: seq<Record>)
    ensures Corresponds(Deduplicate(Rebuilt(trace)), trace)
    ensures Rebuilt(trace) != [] <==> HasFault(trace)
  {
    RebuiltCorresponds(trace);
    DeduplicateKeepsEach(Rebuilt(trace));
    SameMembersCorrespond(Rebuilt(trace), Deduplicate(Rebuilt(trace)), trace);
  }

  lemma SameMembersCorrespond(ts: seq<Scenario>, us: seq<Scenario>, trace: seq<Record>)
    requires Corresponds(ts, trace) && forall s :: s in us <==> s in ts
    ensures Corresponds(us, trace)
  {
    forall i | 0 <= i < |us|
      ensures ReplaysSome(us[i], trace)
    {
      assert us[i] in us;
    }
    forall p | 0 <= p < |trace| && trace[p].Fault?
      ensures ReplayedBySome(trace[p], us)
    {
      assert ReplayedBySome(trace[p], ts);
      var i :| 0 <= i < |ts| && Replays(ts[i], trace[p].coordinate, trace[p].scenario);
      assert ts[i] in us;
    }
  }

  /** `replay`, on a trace already read: each scenario replays a fault and each fault is replayed. The rejection
      is that of the first scenario that fails to load. */
  method Replay(trace: seq<Record>) returns (r: ReplayResult)
    ensures r.Schedules? <==> AllValid(Rebuilt(trace)) && Rebuilt(trace) != []
    ensures r.Schedules? ==> r.scenarios == Deduplicate(Rebuilt(trace)) && Corresponds(r.scenarios, trace)
    ensures r.NoFaults? <==> !HasFault(trace)
    ensures r.Rejected? ==> exists n :: FirstProblem(Rebuilt(trace), n, r.problem)
  {
    r := Schedule(trace);
    ReplayCorresponds(trace);
  }

  /** The loop over the records. */
  method Schedule(trace: seq<Record>) returns (r: ReplayResult)
    ensures r.Schedules? <==> AllValid(Rebuilt(trace)) && Rebuilt(trace) != []
    ensures r.Schedules? ==> r.scenarios == Deduplicate(Rebuilt(trace))
    ensures r.NoFaults? <==> Rebuilt(trace) == []
    ensures r.Rejected? ==> exists n :: FirstProblem(Rebuilt(trace), n, r.problem)
  {
    var schedules: seq<Scenario> := [];
    var unique: set<Scenario> := {};
    ghost var rebuilt: seq<Scenario> := [];
    for i := 0 to |trace|
      invariant rebuilt == Rebuilt(trace[..i]) && AllValid(rebuilt)
      invariant schedules == Deduplicate(rebuilt)
      invariant forall s :: s in unique <==> s in schedules
      invariant schedules == [] <==> rebuilt == []
    {
      RebuiltNext(trace, i);
      if trace[i].Fault? {
        var scenario := Rebuild(trace[i].coordinate, trace[i].scenario);
        var problem := Validate(scenario);
        if problem.Some? {
          RebuiltPrefix(trace, i + 1);
          assert Rebuilt(trace)[..|rebuilt| + 1] == rebuilt + [scenario];
          assert Rebuilt(trace)[..|rebuilt|] == rebuilt;
          assert FirstProblem(Rebuilt(trace), |rebuilt|, problem.value);
          return Rejected(problem.value);
        }
        DeduplicateNext(rebuilt, scenario);
        if scenario !in unique {
          unique := unique + {scenario};
          schedules := schedules + [scenario];
        }
        rebuilt := rebuilt + [scenario];
      } else {
        assert rebuilt + [] == rebuilt;
      }
    }
    assert trace[..|trace|] == trace;
    r := if schedules == [] then NoFaults else Schedules(schedules);
  }

  lemma {:induction false} RebuiltPrefix(trace: seq<Record>, n: nat)
    requires n <= |trace|
    ensures Rebuilt(trace[..n]) <= Rebuilt(trace)
    decreases |trace|
  {
    if n == |trace| {
      assert trace[..n] == trace;
    } else {
      RebuiltPrefix(trace[..|trace| - 1], n);
      assert trace[..|trace| - 1][..n] == trace[..n];
    }
  }

  /** Deduplication keeps every scenario and repeats none. */
  lemma {:induction false} DeduplicateKeepsEach(xs: seq<Scenario>)
    ensures forall s :: s in Deduplicate(xs) <==> s in xs
    ensures forall i, j :: 0 <= i < j < |Deduplicate(xs)| ==> Deduplicate(xs)[i] != Deduplicate(xs)[j]
  {
    if xs != [] {
      DeduplicateKeepsEach(xs[..|xs| - 1]);
      assert xs[..|xs| - 1] + [xs[|xs| - 1]] == xs;
    }
  }

  /** It keeps the order of first occurrence: later faults only add at the end. */
  lemma {:induction false} DeduplicateKeepsOrder(xs: seq<Scenario>, n: nat)
    requires n <= |xs|
    ensures Deduplicate(xs[..n]) <= Deduplicate(xs)
    decreases |xs|
  {
    if n == |xs| {
      assert xs[..n] == xs;
    } else {
      DeduplicateKeepsOrder(xs[..|xs| - 1], n);
      assert xs[..|xs| - 1][..n] == xs[..n];
    }
  }

  /** A trace that goes on replays what it did before first: the scenarios come in the order of their faults. */
  lemma ReplayGrows(trace: seq<Record>, n: nat)
    requires n <= |trace|
    ensures Deduplicate(Rebuilt(trace[..n])) <= Deduplicate(Rebuilt(trace))
  {
    RebuiltPrefix(trace, n);
    var k := |Rebuilt(trace[..n])|;
    assert Rebuilt(trace)[..k] == Rebuilt(trace[..n]);
    DeduplicateKeepsOrder(Rebuilt(trace), k);
  }

  // ---- the rebuilt scenario -----------------------------------------------

  /** It hits the event it was recorded at. */
  lemma RebuildHits(e: Event, s: Scenario)
    requires Hits(s, e)
    ensures Hits(Rebuild(e, s), e) && Wanted(Rebuild(e, s)) == 1
  {
  }

  /** It hits nothing with another coordinate, and nothing the recorded scenario would not select. */
  lemma RebuildHitsOnly(e: Event, s: Scenario, f: Event)
    requires Hits(Rebuild(e, s), f)
    ensures f.reliable && f.name == e.name && f.cycle == e.cycle && f.statementIndex == e.statementIndex
    ensures f.epoch == e.epoch && f.fingerprint == e.fingerprint && (e.row.Some? ==> f.row == e.row)
    ensures e.startup.user.Some? ==> f.startup.user == e.startup.user
    ensures e.startup.database.Some? ==> f.startup.database == e.startup.database
    ensures e.startup.applicationName.Some? ==> f.startup.applicationName == e.startup.applicationName
    ensures s.selector.connectionOrdinal.Some? ==> f.connection == s.selector.connectionOrdinal.value
    ensures s.when.kinds != [] ==> f.kind in s.when.kinds
  {
  }

  /** A fault of a loadable scenario rebuilds to a loadable one exactly when the row it was recorded at is not
      row zero. */
  lemma RebuildIsValidIffRowIsNotZero(e: Event, s: Scenario)
    requires Valid(s) && Hits(s, e)
    ensures Valid(Rebuild(e, s)) <==> e.row != Some(0)
  {
    assert Rebuild(e, s).action == s.action;
  }
}
