/** What the transaction epoch counts. */
module Epochs {
  import opened Events
  import opened Observer
  import opened Runs

  predicate ExecutesAt(x: Seen) {
    x.FromClient? && Executes(x.request)
  }

  predicate IdleReady(x: Seen) {
    x.FromServer? && x.reply == Ready(Idle)
  }

  /** The epoch that the events of a step carry. */
  function EpochAt(s: State, xs: seq<Seen>, k: nat): nat
    requires k < |xs|
  {
    Told(Run(s, xs[..k]), xs[k]).epoch
  }

  lemma EventsCarryEpoch(s: State, x: Seen, i: nat)
    requires i < |EventsOf(s, x)|
    ensures EventsOf(s, x)[i].epoch == Told(s, x).epoch == Advance(s, x).epoch
  {
    StepShape(s, x);
  }

  // ---- on every run ---------------------------------------------------------

  /** An execution begun from idle with nothing else in flight. */
  predicate Starts(s: State, x: Seen) {
    x.FromClient? && StartsEpoch(s, x.request)
  }

  /** The epoch counts the steps that start one; so it never decreases, and never changes outside idle. */
  lemma EpochStep(s: State, x: Seen)
    ensures Told(s, x).epoch == Advance(s, x).epoch == s.epoch + (if Starts(s, x) then 1 else 0)
    ensures Starts(s, x) ==> s.tx.Idle?
  {
    StepShape(s, x);
  }

  /** How many of the steps from number `a` on start an epoch. */
  function StartsSince(s: State, xs: seq<Seen>, a: nat): nat {
    if |xs| <= a then 0
    else StartsSince(s, xs[..|xs| - 1], a) + if Starts(Run(s, xs[..|xs| - 1]), xs[|xs| - 1]) then 1 else 0
  }

  lemma {:induction false} EpochGrows(s: State, earlier: seq<Seen>, xs: seq<Seen>)
    requires earlier <= xs
    ensures Run(s, xs).epoch == Run(s, earlier).epoch + StartsSince(s, xs, |earlier|)
    decreases |xs|
  {
    if |earlier| == |xs| {
      assert earlier == xs;
    } else {
      EpochGrows(s, earlier, xs[..|xs| - 1]);
      EpochStep(Run(s, xs[..|xs| - 1]), xs[|xs| - 1]);
    }
  }

  lemma EpochAtIsAfter(s: State, xs: seq<Seen>, k: nat)
    requires k < |xs|
    ensures EpochAt(s, xs, k) == Run(s, xs[..k + 1]).epoch
  {
    RunPrefix(s, xs, k);
    EpochStep(Run(s, xs[..k]), xs[k]);
  }

  lemma EpochDifference(s: State, xs: seq<Seen>, a: nat, b: nat)
    requires a <= b < |xs|
    ensures EpochAt(s, xs, b) == EpochAt(s, xs, a) + StartsSince(s, xs[..b + 1], a + 1)
  {
    EpochAtIsAfter(s, xs, a);
    EpochAtIsAfter(s, xs, b);
    EpochGrows(s, xs[..a + 1], xs[..b + 1]);
  }

  /** What the epochs in a trace mean, on every run: those of two events differ by the number of executions
      between them that were begun from idle with nothing else in flight, the later one's included. */
  lemma EpochsCountStarts(s: State, xs: seq<Seen>, a: nat, i: nat, b: nat, j: nat)
    requires a <= b < |xs|
    requires i < |EventsOf(Run(s, xs[..a]), xs[a])| && j < |EventsOf(Run(s, xs[..b]), xs[b])|
    ensures EventsOf(Run(s, xs[..b]), xs[b])[j].epoch ==
            EventsOf(Run(s, xs[..a]), xs[a])[i].epoch + StartsSince(s, xs[..b + 1], a + 1)
  {
    EventsCarryEpoch(Run(s, xs[..a]), xs[a], i);
    EventsCarryEpoch(Run(s, xs[..b]), xs[b], j);
    EpochDifference(s, xs, a, b);
  }

  // ---- one cycle at a time ----------------------------------------------------

  /** A transaction opens only in a cycle that has executed something. */
  predicate OpenedByWork(s: State, x: Seen) {
    x.FromServer? && x.reply.Ready? && !x.reply.tx.Idle? && s.tx.Idle? ==>
      s.cycles != [] && s.cycles[0].epochAllocated
  }

  /** Never more than one cycle in flight, and transactions opened by work only. */
  predicate OneAtATime(s: State, xs: seq<Seen>) {
    if xs == [] then |s.cycles| <= 1
    else
      var t, x := Run(s, xs[..|xs| - 1]), xs[|xs| - 1];
      OneAtATime(s, xs[..|xs| - 1]) && OpenedByWork(t, x) && |Advance(t, x).cycles| <= 1
  }

  /** An epoch is under way, and the next execution belongs to it. */
  predicate UnderWay(s: State) {
    s.tx.Idle? ==> s.cycles != [] && s.cycles[0].epochAllocated
  }

  lemma ClientUnderWay(s: State, m: ClientMessage)
    requires |s.cycles| <= 1 && |Received(s, m).cycles| <= 1
    ensures var s' := Received(s, m);
            if Executes(m) then UnderWay(s') && s'.epoch == s.epoch + (if UnderWay(s) then 0 else 1)
            else s'.epoch == s.epoch && (UnderWay(s) <==> UnderWay(s'))
  {
    if Opens(m) {
      ClientCycles(s, m);
      assert Older(s, m) == [];
    }
  }

  lemma ServerUnderWay(s: State, m: ServerMessage)
    requires |s.cycles| <= 1
    ensures var s' := After(Before(s, m), m);
            && s'.epoch == s.epoch == Before(s, m).epoch
            && (m == Ready(Idle) ==> !UnderWay(s'))
            && (m.Ready? && !m.tx.Idle? ==> UnderWay(s'))
            && (!m.Ready? ==> UnderWay(s) == UnderWay(s'))
  {
  }

  lemma UnderWayStep(s: State, x: Seen)
    requires |s.cycles| <= 1 && |Advance(s, x).cycles| <= 1
    ensures ExecutesAt(x) ==> UnderWay(Advance(s, x)) && Told(s, x).epoch == s.epoch + (if UnderWay(s) then 0 else 1)
    ensures IdleReady(x) ==> !UnderWay(Advance(s, x))
    ensures UnderWay(s) && !IdleReady(x) ==> UnderWay(Advance(s, x)) && Told(s, x).epoch == s.epoch
    ensures !UnderWay(s) && !ExecutesAt(x) && OpenedByWork(s, x) ==> !UnderWay(Advance(s, x))
  {
    StepShape(s, x);
    match x {
      case FromClient(m, _) => ClientUnderWay(s, m);
      case FromServer(m) => ServerUnderWay(s, m);
    }
  }

  lemma {:induction false} OneAtATimePrefix(s: State, xs: seq<Seen>, b: nat)
    requires b <= |xs| && OneAtATime(s, xs)
    ensures OneAtATime(s, xs[..b]) && |Run(s, xs).cycles| <= 1
    decreases |xs|
  {
    if b < |xs| {
      OneAtATimePrefix(s, xs[..|xs| - 1], b);
      assert xs[..|xs| - 1][..b] == xs[..b];
    } else {
      assert xs[..b] == xs;
    }
  }

  /** From an execution on, while no idle ReadyForQuery is seen, its epoch stays under way. */
  lemma {:induction false} SameEpoch(s: State, xs: seq<Seen>, a: nat)
    requires a < |xs| && OneAtATime(s, xs) && ExecutesAt(xs[a])
    requires forall k :: a < k < |xs| ==> !IdleReady(xs[k])
    ensures UnderWay(Run(s, xs)) && Run(s, xs).epoch == EpochAt(s, xs, a)
  {
    var front := xs[..|xs| - 1];
    var t, x := Run(s, front), xs[|xs| - 1];
    OneAtATimePrefix(s, front, |front|);
    UnderWayStep(t, x);
    EpochStep(t, x);
    if a < |front| {
      SameEpoch(s, front, a);
      assert front[..a] == xs[..a];
    }
  }

  /** Once an idle ReadyForQuery has been seen, an epoch under way is a later one. */
  lemma LaterStep(s: State, x: Seen, e: nat)
    requires |s.cycles| <= 1 && |Advance(s, x).cycles| <= 1 && OpenedByWork(s, x) && e <= s.epoch
    requires IdleReady(x) || !UnderWay(s) || e < s.epoch
    ensures e <= Advance(s, x).epoch && (!UnderWay(Advance(s, x)) || e < Advance(s, x).epoch)
  {
    UnderWayStep(s, x);
    EpochStep(s, x);
  }

  lemma {:induction false} LaterEpoch(s: State, xs: seq<Seen>, k: nat)
    requires k < |xs| && OneAtATime(s, xs) && IdleReady(xs[k])
    ensures var e := Run(s, xs[..k]).epoch;
            e <= Run(s, xs).epoch && (!UnderWay(Run(s, xs)) || e < Run(s, xs).epoch)
  {
    var front := xs[..|xs| - 1];
    OneAtATimePrefix(s, front, |front|);
    if k < |front| {
      LaterEpoch(s, front, k);
      assert front[..k] == xs[..k];
    }
    LaterStep(Run(s, front), xs[|xs| - 1], Run(s, xs[..k]).epoch);
  }

  /** With one cycle in flight at a time, an execution between two others, or the later of them, starts an
      epoch exactly when an idle ReadyForQuery lies between the two; so they carry the same epoch exactly when
      none does. */
  lemma EpochMeaning(s: State, xs: seq<Seen>, a: nat, b: nat)
    requires a < b < |xs| && ExecutesAt(xs[a]) && ExecutesAt(xs[b]) && OneAtATime(s, xs)
    ensures StartsSince(s, xs[..b + 1], a + 1) == 0 <==> forall k :: a < k < b ==> !IdleReady(xs[k])
    ensures EpochAt(s, xs, a) == EpochAt(s, xs, b) <==> forall k :: a < k < b ==> !IdleReady(xs[k])
  {
    EpochDifference(s, xs, a, b);
    IdleReadySeparates(s, xs, a, b);
  }

  lemma IdleReadySeparates(s: State, xs: seq<Seen>, a: nat, b: nat)
    requires a < b < |xs| && ExecutesAt(xs[a]) && ExecutesAt(xs[b]) && OneAtATime(s, xs)
    ensures EpochAt(s, xs, a) == EpochAt(s, xs, b) <==> forall k :: a < k < b ==> !IdleReady(xs[k])
  {
    var before := xs[..b];
    OneAtATimePrefix(s, xs, b);
    OneAtATimePrefix(s, xs, b + 1);
    EpochOfExecution(s, xs[..b + 1], b);
    assert xs[..b + 1][..b] == before && before[..a] == xs[..a];
    if forall k :: a < k < b ==> !IdleReady(xs[k]) {
      SameEpoch(s, before, a);
    } else {
      var k :| a < k < b && IdleReady(xs[k]);
      IdleSeparates(s, before, a, k);
    }
  }

  /** After an idle ReadyForQuery no epoch is under way, or a later one than before. */
  lemma IdleSeparates(s: State, xs: seq<Seen>, a: nat, k: nat)
    requires a < k < |xs| && OneAtATime(s, xs) && IdleReady(xs[k])
    ensures EpochAt(s, xs, a) <= Run(s, xs).epoch
    ensures UnderWay(Run(s, xs)) ==> EpochAt(s, xs, a) < Run(s, xs).epoch
  {
    LaterEpoch(s, xs, k);
    EpochUpTo(s, xs, a, k);
  }

  /** An execution starts an epoch exactly when none is under way. */
  lemma EpochOfExecution(s: State, xs: seq<Seen>, b: nat)
    requires |xs| == b + 1 && OneAtATime(s, xs) && ExecutesAt(xs[b])
    ensures EpochAt(s, xs, b) == Run(s, xs[..b]).epoch + (if UnderWay(Run(s, xs[..b])) then 0 else 1)
  {
    OneAtATimePrefix(s, xs[..b], b);
    UnderWayStep(Run(s, xs[..b]), xs[b]);
  }

  lemma EpochUpTo(s: State, xs: seq<Seen>, a: nat, k: nat)
    requires a < k < |xs|
    ensures EpochAt(s, xs, a) <= Run(s, xs[..k]).epoch
  {
    RunPrefix(s, xs, a);
    EpochStep(Run(s, xs[..a]), xs[a]);
    EpochGrows(s, xs[..a + 1], xs[..k]);
  }

  // ---- what the two conditions are for ------------------------------------------

  predicate Quiet(s: State) {
    s.tx.Idle? && s.cycles == []
  }

  lemma QueryAdvances(s: State, q: Statement)
    ensures var t := Advance(s, FromClient(Query(q), true));
            t.tx == s.tx && |t.cycles| == |s.cycles| + 1 && t.epoch == s.epoch + (if Quiet(s) then 1 else 0)
  {
    StepShape(s, FromClient(Query(q), true));
  }

  lemma ReadyAdvances(s: State, tx: TxState)
    ensures var t := Advance(s, FromServer(Ready(tx)));
            t.tx == tx && |t.cycles| == (if s.cycles == [] then 0 else |s.cycles| - 1) && t.epoch == s.epoch
  {
    StepShape(s, FromServer(Ready(tx)));
  }

  lemma SyncAdvances(s: State)
    ensures Advance(s, FromClient(Sync, true)).epoch == s.epoch
  {
    StepShape(s, FromClient(Sync, true));
  }

  lemma LastState(s: State, xs: seq<Seen>, x: Seen)
    ensures Run(s, xs + [x]) == Advance(Run(s, xs), x)
    ensures EpochAt(s, xs + [x], |xs|) == Run(s, xs + [x]).epoch
  {
    assert (xs + [x])[..|xs|] == xs;
    EpochStep(Run(s, xs), x);
  }

  /** Pipelined, an idle ReadyForQuery need not separate epochs: here the third query is sent while the second
      is in flight. */
  lemma PipelinedQueriesShareAnEpoch(s: State, p: Statement, q: Statement, r: Statement)
    requires Quiet(s)
    ensures var first := [FromClient(Query(p), true)];
            var all := first + [FromClient(Query(q), true)] + [FromServer(Ready(Idle))] + [FromClient(Query(r), true)];
            IdleReady(all[2]) && EpochAt(s, first, 0) == EpochAt(s, all, 3)
  {
    var x1 := [FromClient(Query(p), true)];
    var x2 := x1 + [FromClient(Query(q), true)];
    var x3 := x2 + [FromServer(Ready(Idle))];
    assert [] + x1 == x1;
    LastState(s, [], FromClient(Query(p), true));
    LastState(s, x1, FromClient(Query(q), true));
    LastState(s, x2, FromServer(Ready(Idle)));
    LastState(s, x3, FromClient(Query(r), true));
    QueryAdvances(s, p);
    QueryAdvances(Run(s, x1), q);
    ReadyAdvances(Run(s, x2), Idle);
    QueryAdvances(Run(s, x3), r);
  }

  /** Nor do they when a cycle without work leaves a transaction open: the later query is then inside one. */
  lemma TransactionWithoutWorkKeepsTheEpoch(s: State, p: Statement, q: Statement)
    requires Quiet(s)
    ensures var first := [FromClient(Query(p), true)];
            var all := first + [FromServer(Ready(Idle))] + [FromClient(Sync, true)] + [FromServer(Ready(InTransaction))] +
                       [FromClient(Query(q), true)];
            IdleReady(all[1]) && EpochAt(s, first, 0) == EpochAt(s, all, 4)
  {
    var x1 := [FromClient(Query(p), true)];
    var x2 := x1 + [FromServer(Ready(Idle))];
    var x3 := x2 + [FromClient(Sync, true)];
    var x4 := x3 + [FromServer(Ready(InTransaction))];
    assert [] + x1 == x1;
    LastState(s, [], FromClient(Query(p), true));
    LastState(s, x1, FromServer(Ready(Idle)));
    LastState(s, x2, FromClient(Sync, true));
    LastState(s, x3, FromServer(Ready(InTransaction)));
    LastState(s, x4, FromClient(Query(q), true));
    QueryAdvances(s, p);
    ReadyAdvances(Run(s, x1), Idle);
    SyncAdvances(Run(s, x2));
    ReadyAdvances(Run(s, x3), InTransaction);
    QueryAdvances(Run(s, x4), q);
  }
}
