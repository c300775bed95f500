/** Scenarios and their one-shot matchers: crates/pgfault-scenario/src/lib.rs. */
module Scenarios {
  import opened Base
  import opened Sql
  import opened Events

  datatype Selector = Selector(
    applicationName: Option<Bytes>,
    user: Option<Bytes>,
    database: Option<Bytes>,
    connectionOrdinal: Option<nat>,
    transaction: Option<nat>,
    queryCycle: Option<nat>,
    statement: Option<nat>,
    fingerprint: Option<Fingerprint>)

  datatype When = When(event: EventName, occurrence: Option<nat>, kinds: seq<StatementClass>, row: Option<nat>)

  datatype Direction = Upstream | Downstream

  datatype Side = FrontendSide | UpstreamSide

  datatype Mode = CloseMode | ResetMode

  datatype Disconnect = Disconnect(side: Side, mode: Mode)

  /** The duration in nanoseconds; nothing when its text does not parse. */
  datatype Delay = Delay(direction: Direction, duration: Option<nat>)

  datatype Action = Action(
    suppress: Option<bool>,
    disconnect: Option<Disconnect>,
    delay: Option<Delay>,
    truncate: Option<nat>)

  datatype Scenario = Scenario(version: nat, name: string, selector: Selector, when: When, action: Action)

  // ---- validation ---------------------------------------------------------

  datatype Problem =
    | UnsupportedVersion | EmptyName | UnknownEvent | ZeroOccurrenceOrRow | ZeroConnection
    | InvalidDuration | DelayTooLong | DirectionMismatch | NoAction | MisplacedTruncation

  const DAY: nat := 86_400_000_000_000

  predicate IsWhite(c: char) {
    var n := c as int;
    9 <= n <= 13 || n == 0x20 || n == 0x85 || n == 0xA0 || n == 0x1680 || 0x2000 <= n <= 0x200A ||
    n == 0x2028 || n == 0x2029 || n == 0x202F || n == 0x205F || n == 0x3000
  }

  predicate Blank(name: string) {
    forall i :: 0 <= i < |name| ==> IsWhite(name[i])
  }

  /** The events that happen on the way to the server. */
  predicate GoesUpstream(n: EventName) {
    n in {QueryReceived, QueryForwarded, ExecutionStarted, BeginRequested, CommitRequested, RollbackRequested,
          FrontendExecute, FrontendSync}
  }

  /** `validate`: the first problem found, if any. */
  function Validate(s: Scenario): Option<Problem> {
    if s.version != 1 then Some(UnsupportedVersion)
    else if Blank(s.name) then Some(EmptyName)
    else if s.when.event.Unlisted? then Some(UnknownEvent)
    else if s.when.occurrence == Some(0) || s.when.row == Some(0) then Some(ZeroOccurrenceOrRow)
    else if s.selector.connectionOrdinal == Some(0) then Some(ZeroConnection)
    else if s.action.delay.Some? && s.action.delay.value.duration.None? then Some(InvalidDuration)
    else if s.action.delay.Some? && s.action.delay.value.duration.value > DAY then Some(DelayTooLong)
    else if s.action.delay.Some? && GoesUpstream(s.when.event) != s.action.delay.value.direction.Upstream? then
      Some(DirectionMismatch)
    else if s.action == Action(None, None, None, None) then Some(NoAction)
    else if s.action.truncate.Some? && s.when.event != ResultStarted then Some(MisplacedTruncation)
    else None
  }

  predicate Valid(s: Scenario) {
    Validate(s).None?
  }

  // ---- matching -----------------------------------------------------------

  predicate Admits<T(==)>(wanted: Option<T>, actual: T) {
    wanted.None? || wanted.value == actual
  }

  /** For coordinates an event may lack: a wanted value must be present. */
  predicate AdmitsPresent<T(==)>(wanted: Option<T>, actual: Option<T>) {
    wanted.None? || wanted == actual
  }

  predicate Selects(s: Scenario, e: Event) {
    && AdmitsPresent(s.selector.applicationName, e.startup.applicationName)
    && AdmitsPresent(s.selector.user, e.startup.user)
    && AdmitsPresent(s.selector.database, e.startup.database)
    && Admits(s.selector.connectionOrdinal, e.connection)
    && Admits(s.selector.transaction, e.epoch)
    && Admits(s.selector.queryCycle, e.cycle)
    && Admits(s.selector.statement, e.statementIndex)
    && Admits(s.selector.fingerprint, e.fingerprint)
    && (s.when.kinds == [] || e.kind in s.when.kinds)
    && AdmitsPresent(s.when.row, e.row)
  }

  /** The event counts for the scenario. */
  predicate Hits(s: Scenario, e: Event) {
    e.reliable && e.name == s.when.event && Selects(s, e)
  }

  function Wanted(s: Scenario): nat {
    if s.when.occurrence.Some? then s.when.occurrence.value else 1
  }

  datatype MatcherState = MatcherState(scenario: Scenario, seen: nat, fired: bool)

  function Fresh(s: Scenario): MatcherState {
    MatcherState(s, 0, false)
  }

  predicate Fires(m: MatcherState, e: Event) {
    !m.fired && Hits(m.scenario, e) && m.seen + 1 == Wanted(m.scenario)
  }

  function Observed(m: MatcherState, e: Event): MatcherState {
    if m.fired || !Hits(m.scenario, e) then m
    else m.(seen := m.seen + 1, fired := m.seen + 1 == Wanted(m.scenario))
  }

  predicate Gates(m: MatcherState, boundary: EventName) {
    !m.fired && m.scenario.when.event == boundary
  }

  /** The matcher as the object a connection owns. */
  class Matcher {
    const scenario: Scenario
    var seen: nat
    var fired: bool

    ghost function View(): MatcherState
      reads this
    {
      MatcherState(scenario, seen, fired)
    }

    constructor (scenario: Scenario)
      ensures View() == Fresh(scenario)
    {
      this.scenario := scenario;
      seen, fired := 0, false;
    }

    method Observe(e: Event) returns (fires: bool)
      modifies this
      ensures fires == Fires(old(View()), e)
      ensures View() == Observed(old(View()), e)
    {
      if !e.reliable || fired || e.name != scenario.when.event || !Selects(scenario, e) {
        return false;
      }
      seen := seen + 1;
      if seen == (if scenario.when.occurrence.Some? then scenario.when.occurrence.value else 1) {
        fired := true;
        return true;
      }
      return false;
    }

    method NeedsGate(boundary: EventName) returns (b: bool)
      ensures b == Gates(View(), boundary)
    {
      b := !fired && scenario.when.event == boundary;
    }
  }

  // ---- what a matcher does over an event sequence -------------------------

  function ObserveEach(m: MatcherState, es: seq<Event>): MatcherState {
    if es == [] then m else Observed(ObserveEach(m, es[..|es| - 1]), es[|es| - 1])
  }

  function HitCount(s: Scenario, es: seq<Event>): nat {
    if es == [] then 0 else HitCount(s, es[..|es| - 1]) + if Hits(s, es[|es| - 1]) then 1 else 0
  }

  /** The matcher, run over the whole sequence, fires at event `k`. */
  predicate FiresAt(m: MatcherState, es: seq<Event>, k: nat) {
    k < |es| && Fires(ObserveEach(m, es[..k]), es[k])
  }

  lemma {:induction false} SeenCountsHits(s: Scenario, es: seq<Event>)
    requires 1 <= Wanted(s)
    ensures var m := ObserveEach(Fresh(s), es);
            && m.scenario == s
            && m.fired == (Wanted(s) <= HitCount(s, es))
            && m.seen == if m.fired then Wanted(s) else HitCount(s, es)
  {
    if es != [] {
      SeenCountsHits(s, es[..|es| - 1]);
    }
  }

  lemma {:induction false} HitCountGrows(s: Scenario, es: seq<Event>, i: nat, k: nat)
    requires i <= k <= |es|
    ensures HitCount(s, es[..i]) <= HitCount(s, es[..k])
    decreases k
  {
    if i < k {
      assert es[..k][..k - 1] == es[..k - 1];
      HitCountGrows(s, es, i, k - 1);
    }
  }

  /** A scenario fires exactly at its k-th reliable event that passes all filters. */
  lemma FiresAtTheWantedHit(s: Scenario, es: seq<Event>, k: nat)
    requires 1 <= Wanted(s) && k < |es|
    ensures FiresAt(Fresh(s), es, k) <==> Hits(s, es[k]) && HitCount(s, es[..k]) + 1 == Wanted(s)
  {
    SeenCountsHits(s, es[..k]);
  }

  /** It never fires twice. */
  lemma FiresOnce(s: Scenario, es: seq<Event>, i: nat, k: nat)
    requires 1 <= Wanted(s) && FiresAt(Fresh(s), es, i) && FiresAt(Fresh(s), es, k)
    ensures i == k
  {
    var a, b := if i < k then i else k, if i < k then k else i;
    FiresAtTheWantedHit(s, es, a);
    FiresAtTheWantedHit(s, es, b);
    if a < b {
      assert es[..a + 1][..a] == es[..a];
      HitCountGrows(s, es, a + 1, b);
    }
  }

  /** Unreliable events are neither counted nor fired on. */
  lemma {:induction false} UnreliableIsIgnored(m: MatcherState, es: seq<Event>)
    requires forall i :: 0 <= i < |es| ==> !es[i].reliable
    ensures ObserveEach(m, es) == m
    ensures forall k :: !FiresAt(m, es, k)
  {
    if es != [] {
      UnreliableIsIgnored(m, es[..|es| - 1]);
      forall k
        ensures !FiresAt(m, es, k)
      {
      }
    }
  }

  /** With the default occurrence the first hit is the one that fires. */
  lemma {:induction false} FirstHitFires(s: Scenario, es: seq<Event>, k: nat) returns (i: nat)
    requires Wanted(s) == 1 && k < |es| && Hits(s, es[k])
    ensures i <= k && FiresAt(Fresh(s), es, i)
    ensures forall j :: 0 <= j < i ==> !Hits(s, es[j])
    decreases k
  {
    if j :| 0 <= j < k && Hits(s, es[j]) {
      i := FirstHitFires(s, es, j);
    } else {
      i := k;
      NoHits(s, es[..k]);
      FiresAtTheWantedHit(s, es, k);
    }
  }

  lemma {:induction false} NoHits(s: Scenario, es: seq<Event>)
    requires forall j :: 0 <= j < |es| ==> !Hits(s, es[j])
    ensures HitCount(s, es) == 0
  {
    if es != [] {
      NoHits(s, es[..|es| - 1]);
    }
  }

  lemma {:induction false} AllHit(s: Scenario, es: seq<Event>)
    requires forall j :: 0 <= j < |es| ==> Hits(s, es[j])
    ensures HitCount(s, es) == |es|
  {
    if es != [] {
      AllHit(s, es[..|es| - 1]);
    }
  }

  /** An event made to measure. */
  function Witness(s: Scenario): (e: Event)
    ensures Hits(s, e)
  {
    var want := s.selector;
    Event(if want.connectionOrdinal.Some? then want.connectionOrdinal.value else 1,
          true,
          Startup(want.user, want.database, want.applicationName),
          if want.transaction.Some? then want.transaction.value else 0,
          if want.queryCycle.Some? then want.queryCycle.value else 0,
          if want.statement.Some? then want.statement.value else 0,
          if s.when.kinds == [] then Other else s.when.kinds[0],
          if want.fingerprint.Some? then want.fingerprint.value else Missing,
          s.when.event, 1, s.when.row)
  }

  /** Why validation refuses an occurrence of zero: such a scenario never fires, while every other one fires
      on some events. */
  lemma FiresOnSomeEvents(s: Scenario)
    ensures (exists es, k :: FiresAt(Fresh(s), es, k)) <==> s.when.occurrence != Some(0)
    ensures Valid(s) ==> s.when.occurrence != Some(0)
  {
    if s.when.occurrence != Some(0) {
      var e := Witness(s);
      var es := seq(Wanted(s), i => e);
      var k := Wanted(s) - 1;
      AllHit(s, es[..k]);
      FiresAtTheWantedHit(s, es, k);
      assert FiresAt(Fresh(s), es, k);
    } else {
      forall es, k
        ensures !FiresAt(Fresh(s), es, k)
      {
        if FiresAt(Fresh(s), es, k) {
          ObserveEachKeeps(Fresh(s), es[..k]);
        }
      }
    }
  }

  lemma {:induction false} ObserveEachKeeps(m: MatcherState, es: seq<Event>)
    ensures ObserveEach(m, es).scenario == m.scenario
  {
    if es != [] {
      ObserveEachKeeps(m, es[..|es| - 1]);
    }
  }

  // ---- the filters ----------------------------------------------------------

  /** What a filter says of an event's value: left out, it admits every value and none; set, only its own. */
  predicate Passes<T(==)>(filter: Option<T>, value: Option<T>) {
    match filter
    case None => true
    case Some(wanted) => value == Some(wanted)
  }

  predicate PassesAll(s: Scenario, e: Event) {
    && Passes(s.selector.applicationName, e.startup.applicationName)
    && Passes(s.selector.user, e.startup.user)
    && Passes(s.selector.database, e.startup.database)
    && Passes(s.selector.connectionOrdinal, Some(e.connection))
    && Passes(s.selector.transaction, Some(e.epoch))
    && Passes(s.selector.queryCycle, Some(e.cycle))
    && Passes(s.selector.statement, Some(e.statementIndex))
    && Passes(s.selector.fingerprint, Some(e.fingerprint))
    && (|s.when.kinds| > 0 ==> e.kind in s.when.kinds)
    && Passes(s.when.row, e.row)
  }

  /** A matcher counts an event exactly when it has not fired, the event is reliable and has the name waited for,
      and every filter lets it pass; it fires when the count reaches the occurrence asked for, or one. */
  lemma CountsExactly(m: MatcherState, e: Event)
    ensures var counts := !m.fired && e.reliable && e.name == m.scenario.when.event && PassesAll(m.scenario, e);
            var wanted := match m.scenario.when.occurrence case None => 1 case Some(n) => n;
            && (Fires(m, e) <==> counts && m.seen + 1 == wanted)
            && Observed(m, e) == if counts then m.(seen := m.seen + 1, fired := m.seen + 1 == wanted) else m
  {
  }

  const NO_SELECTOR: Selector := Selector(None, None, None, None, None, None, None, None)

  /** Without filters and with the default occurrence, the first reliable event of the name fires, whatever else
      it carries. */
  lemma UnfilteredFires(s: Scenario, e: Event)
    requires s.selector == NO_SELECTOR && s.when.occurrence.None? && s.when.kinds == [] && s.when.row.None?
    ensures Fires(Fresh(s), e) <==> e.reliable && e.name == s.when.event
  {
  }

  predicate Cleared<T(==)>(filter: Option<T>, filter': Option<T>) {
    filter' == None || filter' == filter
  }

  /** `t` is `s` with some of its filters left out. */
  predicate Looser(s: Scenario, t: Scenario) {
    && t.when.event == s.when.event && t.when.occurrence == s.when.occurrence
    && Cleared(s.selector.applicationName, t.selector.applicationName) && Cleared(s.selector.user, t.selector.user)
    && Cleared(s.selector.database, t.selector.database)
    && Cleared(s.selector.connectionOrdinal, t.selector.connectionOrdinal)
    && Cleared(s.selector.transaction, t.selector.transaction) && Cleared(s.selector.queryCycle, t.selector.queryCycle)
    && Cleared(s.selector.statement, t.selector.statement) && Cleared(s.selector.fingerprint, t.selector.fingerprint)
    && (t.when.kinds == [] || t.when.kinds == s.when.kinds) && Cleared(s.when.row, t.when.row)
  }

  /** Leaving filters out never loses a firing: whatever the matcher had counted, and over a whole sequence the
      looser scenario fires no later. */
  lemma LooserFires(s: Scenario, t: Scenario, seen: nat, e: Event)
    requires Looser(s, t) && Fires(MatcherState(s, seen, false), e)
    ensures Fires(MatcherState(t, seen, false), e)
  {
  }

  lemma LooserFiresNoLater(s: Scenario, t: Scenario, es: seq<Event>, k: nat) returns (i: nat)
    requires Looser(s, t) && 1 <= Wanted(s) && FiresAt(Fresh(s), es, k)
    ensures i <= k && FiresAt(Fresh(t), es, i)
  {
    FiresAtTheWantedHit(s, es, k);
    LooserCounts(s, t, es[..k + 1]);
    assert es[..k + 1][..k] == es[..k];
    i := ReachesWanted(t, es[..k + 1]);
    assert es[..k + 1][..i] == es[..i];
  }

  lemma {:induction false} LooserCounts(s: Scenario, t: Scenario, es: seq<Event>)
    requires Looser(s, t)
    ensures HitCount(s, es) <= HitCount(t, es)
  {
    if es != [] {
      LooserCounts(s, t, es[..|es| - 1]);
    }
  }

  /** Enough hits, and the scenario has fired. */
  lemma {:induction false} ReachesWanted(s: Scenario, es: seq<Event>) returns (i: nat)
    requires 1 <= Wanted(s) <= HitCount(s, es)
    ensures i < |es| && FiresAt(Fresh(s), es, i)
  {
    var front := es[..|es| - 1];
    if Wanted(s) <= HitCount(s, front) {
      i := ReachesWanted(s, front);
      assert front[..i] == es[..i];
    } else {
      i := |front|;
      FiresAtTheWantedHit(s, es, i);
    }
  }

  // ---- which scenarios load ---------------------------------------------------

  const LISTED: set<EventName> :=
    {QueryReceived, QueryForwarded, ExecutionStarted, ExecutionCompleted, BeginRequested, CommitRequested, CommitCompleted,
     RollbackRequested, RollbackCompleted, ImplicitCompleted, TransactionFailed, ResultStarted, ResultRow, ResultCompleted,
     FrontendSync, FrontendExecute, CommandCompleted, BackendReady, BackendError, ConnectionReady}

  /** The events made for a client message. */
  const FROM_CLIENT: set<EventName> :=
    {QueryReceived, QueryForwarded, ExecutionStarted, BeginRequested, CommitRequested, RollbackRequested, FrontendExecute, FrontendSync}

  /** A delay has a duration of at most a day and goes the way its event goes. */
  predicate DelayLoads(d: Delay, event: EventName) {
    d.duration.Some? && d.duration.value <= 86_400 * 1_000_000_000 && (event in FROM_CLIENT <==> d.direction == Upstream)
  }

  /** A scenario loads exactly when it has version one, a name that is not blank, a listed event, numbers from
      one on, a proper delay, some action, and a row limit only where a result starts. */
  lemma LoadsExactly(s: Scenario)
    ensures Valid(s) <==>
            && s.version == 1 && (exists i :: 0 <= i < |s.name| && !IsWhite(s.name[i])) && s.when.event in LISTED
            && s.when.occurrence != Some(0) && s.when.row != Some(0) && s.selector.connectionOrdinal != Some(0)
            && (s.action.delay.Some? ==> DelayLoads(s.action.delay.value, s.when.event))
            && (s.action.suppress.Some? || s.action.disconnect.Some? || s.action.delay.Some? || s.action.truncate.Some?)
            && (s.action.truncate.Some? ==> s.when.event == ResultStarted)
  {
  }
}
