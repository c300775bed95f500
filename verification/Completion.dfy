/** Completed transactions over whole runs, with nothing assumed about the server. */
module Completion {
  import opened Base
  import opened Sql
  import opened Events
  import opened Observer
  import opened Runs

  predicate Completes(n: EventName) {
    n.CommitCompleted? || n.RollbackCompleted? || n.ImplicitCompleted?
  }

  /** The two explicit ways to end a transaction. */
  predicate Ending(k: StatementClass) {
    k == Commit || k == Rollback
  }

  function AskedName(k: StatementClass): EventName {
    if k == Commit then CommitRequested else RollbackRequested
  }

  function DoneName(k: StatementClass): EventName {
    if k == Commit then CommitCompleted else RollbackCompleted
  }

  /** One of the first `n` events is the request, in that cycle. */
  predicate Asked(tr: seq<Event>, n: nat, cycle: nat, k: StatementClass)
    requires n <= |tr|
  {
    exists i :: 0 <= i < n && tr[i].name == AskedName(k) && tr[i].cycle == cycle
  }

  /** A statement of that class may still be the last one the cycle answers. */
  predicate MayEnd(c: Cycle, k: StatementClass) {
    c.last.kind == k || exists i :: 0 <= i < |c.statements| && c.statements[i].kind == k
  }

  predicate RequestsKnown(s: State, tr: seq<Event>, k: StatementClass) {
    forall i :: 0 <= i < |s.cycles| && MayEnd(s.cycles[i], k) ==> Asked(tr, |tr|, s.cycles[i].id, k)
  }

  /** Each cycle completes at most once. */
  predicate CompletedOnce(tr: seq<Event>) {
    forall i, j :: 0 <= i < j < |tr| && Completes(tr[i].name) && Completes(tr[j].name) ==> tr[i].cycle < tr[j].cycle
  }

  predicate CompletedAreClosed(s: State, tr: seq<Event>)
    requires Numbered(s)
  {
    forall i :: 0 <= i < |tr| && Completes(tr[i].name) ==> 1 <= tr[i].cycle <= Closed(s)
  }

  /** Every completion comes after a request made in the same cycle. */
  predicate CompletedWereAsked(tr: seq<Event>, k: StatementClass) {
    forall j :: 0 <= j < |tr| && tr[j].name == DoneName(k) ==> Asked(tr, j, tr[j].cycle, k)
  }

  predicate Sound(s: State, tr: seq<Event>, k: StatementClass) {
    && Numbered(s)
    && RequestsKnown(s, tr, k)
    && CompletedOnce(tr)
    && CompletedAreClosed(s, tr)
    && CompletedWereAsked(tr, k)
  }

  lemma AskedExtends(tr: seq<Event>, n: nat, more: seq<Event>, cycle: nat, k: StatementClass)
    requires n <= |tr| && Asked(tr, n, cycle, k)
    ensures Asked(tr + more, n, cycle, k) && Asked(tr + more, |tr + more|, cycle, k)
  {
    var i :| 0 <= i < n && tr[i].name == AskedName(k) && tr[i].cycle == cycle;
    assert (tr + more)[i] == tr[i];
  }

  /** Only a Query or Execute gives a cycle a statement to end with. */
  lemma ExtendMayEnd(c: Cycle, s: State, m: ClientMessage, k: StatementClass)
    requires MayEnd(Extend(c, s, m), k) && !MayEnd(c, k)
    ensures Executes(m) && Requested(s, m).kind == k
  {
    var c' := Extend(c, s, m);
    if Executes(m) {
      var i :| 0 <= i < |c'.statements| && c'.statements[i].kind == k;
      assert forall j :: 0 <= j < |c.statements| ==> c.statements[j].kind != k;
    }
  }

  /** A request is announced at once, in the cycle it joins. */
  lemma RequestAnnounced(s: State, m: ClientMessage, forwarded: bool, k: StatementClass)
    requires Ending(k) && Executes(m) && Requested(s, m).kind == k
    ensures var x := FromClient(m, forwarded);
            |EventsOf(s, x)| > 2 && EventsOf(s, x)[2].name == AskedName(k) && EventsOf(s, x)[2].cycle == Newest(Left(s, x)).id
  {
    var x := FromClient(m, forwarded);
    StepShape(s, x);
    assert ClientNames(s, m)[2] == AskedName(k);
    assert NamesOf(s, x)[2] == AskedName(k);
  }

  lemma ClientMayEnd(s: State, m: ClientMessage, i: nat, k: StatementClass)
    requires Ending(k) && i < |Received(s, m).cycles| && MayEnd(Received(s, m).cycles[i], k)
    ensures
      || (i < |s.cycles| && MayEnd(s.cycles[i], k) && s.cycles[i].id == Received(s, m).cycles[i].id)
      || (Executes(m) && Requested(s, m).kind == k && i == |Received(s, m).cycles| - 1)
  {
    ClientCycles(s, m);
    if Opens(m) && i == |Older(s, m)| {
      assert MayEnd(Joined(s, m), k);
      var base := if OpensNew(s, m) then NewCycle(s.nextCycle + 1, !m.Query?) else Newest(s);
      if !MayEnd(base, k) {
        ExtendMayEnd(base, s, m, k);
      }
    }
  }

  lemma ClientRequestsStayKnown(s: State, m: ClientMessage, forwarded: bool, tr: seq<Event>, k: StatementClass, i: nat)
    requires RequestsKnown(s, tr, k) && Ending(k)
    requires i < |Received(s, m).cycles| && MayEnd(Received(s, m).cycles[i], k)
    ensures var es := EventsOf(s, FromClient(m, forwarded));
            Asked(tr + es, |tr + es|, Received(s, m).cycles[i].id, k)
  {
    var es := EventsOf(s, FromClient(m, forwarded));
    ClientMayEnd(s, m, i, k);
    if i < |s.cycles| && MayEnd(s.cycles[i], k) && s.cycles[i].id == Received(s, m).cycles[i].id {
      AskedExtends(tr, |tr|, es, s.cycles[i].id, k);
    } else {
      RequestAnnounced(s, m, forwarded, k);
      assert (tr + es)[|tr| + 2] == es[2];
    }
  }

  /** A server message moves statements towards `last` but adds none. */
  lemma ServerMayEnd(s: State, m: ServerMessage, i: nat, k: StatementClass)
    requires i < |After(Before(s, m), m).cycles| && MayEnd(After(Before(s, m), m).cycles[i], k)
    ensures var j := if m.Ready? then i + 1 else i;
            j < |s.cycles| && MayEnd(s.cycles[j], k) && s.cycles[j].id == After(Before(s, m), m).cycles[i].id
  {
    var c := After(Before(s, m), m).cycles[i];
    if i == 0 && !m.Ready? {
      var was := s.cycles[0];
      if c.last.kind != k {
        var n :| 0 <= n < |c.statements| && c.statements[n].kind == k;
        assert c.statements[n] == was.statements[n] || c.statements[n] == was.statements[n + 1];
      }
    }
  }

  lemma RequestsStayKnown(s: State, x: Seen, tr: seq<Event>, k: StatementClass)
    requires Sound(s, tr, k) && Ending(k)
    ensures RequestsKnown(Left(s, x), tr + EventsOf(s, x), k)
  {
    var s', es := Left(s, x), EventsOf(s, x);
    forall i | 0 <= i < |s'.cycles| && MayEnd(s'.cycles[i], k)
      ensures Asked(tr + es, |tr + es|, s'.cycles[i].id, k)
    {
      match x {
        case FromClient(m, forwarded) =>
          ClientRequestsStayKnown(s, m, forwarded, tr, k, i);
        case FromServer(m) =>
          var j := if m.Ready? then i + 1 else i;
          ServerMayEnd(s, m, i, k);
          AskedExtends(tr, |tr|, es, s.cycles[j].id, k);
      }
    }
  }

  lemma ReadyCompletes(s: State, tx: TxState, j: nat)
    requires j < |ServerNames(s, Ready(tx))| && Completes(ServerNames(s, Ready(tx))[j])
    ensures Verdict(s, tx) == Some(ServerNames(s, Ready(tx))[j]) && j == |ServerNames(s, Ready(tx))| - 2
  {
  }

  lemma OnlyReadyCompletes(s: State, x: Seen, j: nat)
    requires j < |NamesOf(s, x)| && Completes(NamesOf(s, x)[j])
    ensures x.FromServer? && x.reply.Ready?
  {
    if x.FromClient? {
      assert forall i :: 0 <= i < |ClientNames(s, x.request)| ==> !Completes(ClientNames(s, x.request)[i]);
    }
  }

  lemma BeforeReady(s: State, tx: TxState)
    ensures Before(s, Ready(tx)) == s
  {
    assert s.cycles != [] ==> [s.cycles[0]] + s.cycles[1..] == s.cycles;
  }

  /** A step announces at most one completion: at a ReadyForQuery, for the cycle it closes. */
  lemma CompletionStep(s: State, x: Seen, j: nat)
    requires Numbered(s) && j < |NamesOf(s, x)| && Completes(NamesOf(s, x)[j])
    ensures x.FromServer? && x.reply.Ready? && s.cycles != []
    ensures Verdict(s, x.reply.tx) == Some(NamesOf(s, x)[j])
    ensures j == |NamesOf(s, x)| - 2
    ensures EventsOf(s, x)[j].cycle == Closed(s) + 1
  {
    OnlyReadyCompletes(s, x, j);
    BeforeReady(s, x.reply.tx);
    ReadyCompletes(s, x.reply.tx, j);
    StepShape(s, x);
  }

  /** What a completion among the events of a step must satisfy. */
  predicate Fits(s: State, s': State, tr: seq<Event>, es: seq<Event>, k: StatementClass)
    requires Numbered(s) && Numbered(s')
  {
    forall j :: 0 <= j < |es| && Completes(es[j].name) ==>
      && j == |es| - 2
      && es[j].cycle == Closed(s) + 1 == Closed(s')
      && (es[j].name == DoneName(k) ==> Asked(tr, |tr|, es[j].cycle, k))
  }

  lemma CompletionFits(s: State, x: Seen, tr: seq<Event>, k: StatementClass)
    requires Sound(s, tr, k) && Ending(k) && Numbered(Advance(s, x))
    ensures Fits(s, Advance(s, x), tr, EventsOf(s, x), k)
  {
    StepShape(s, x);
    var es := EventsOf(s, x);
    forall j | 0 <= j < |es| && Completes(es[j].name)
      ensures j == |es| - 2 && es[j].cycle == Closed(s) + 1 == Closed(Advance(s, x))
      ensures es[j].name == DoneName(k) ==> Asked(tr, |tr|, es[j].cycle, k)
    {
      CompletionStep(s, x, j);
      NumberedServer(s, x.reply);
      if es[j].name == DoneName(k) {
        assert MayEnd(s.cycles[0], k);
      }
    }
  }

  lemma SoundExtends(s: State, s': State, tr: seq<Event>, es: seq<Event>, k: StatementClass)
    requires Sound(s, tr, k) && Numbered(s') && Closed(s) <= Closed(s')
    requires RequestsKnown(s', tr + es, k) && Fits(s, s', tr, es, k)
    ensures Sound(s', tr + es, k)
  {
    var all := tr + es;
    forall j | 0 <= j < |all| && all[j].name == DoneName(k)
      ensures Asked(all, j, all[j].cycle, k)
    {
      if j < |tr| {
        AskedExtends(tr, j, es, tr[j].cycle, k);
      } else {
        assert Completes(es[j - |tr|].name);
        AskedExtends(tr, |tr|, es, all[j].cycle, k);
      }
    }
    forall i, j | 0 <= i < j < |all| && Completes(all[i].name) && Completes(all[j].name)
      ensures all[i].cycle < all[j].cycle
    {
      if j >= |tr| {
        assert Completes(es[j - |tr|].name);
        assert forall n :: 0 <= n < |es| && Completes(es[n].name) ==> n == |es| - 2;
      }
    }
  }

  lemma SoundStep(s: State, x: Seen, tr: seq<Event>, k: StatementClass)
    requires Sound(s, tr, k) && Ending(k)
    ensures Sound(Advance(s, x), tr + EventsOf(s, x), k)
  {
    StepShape(s, x);
    NumberedStep(s, x);
    RequestsStayKnown(s, x, tr, k);
    CompletionFits(s, x, tr, k);
    SoundExtends(s, Advance(s, x), tr, EventsOf(s, x), k);
  }

  /** On every run each cycle yields at most one completion, and a completed commit (rollback) comes after
      its own request. */
  lemma {:induction false} CompletionSoundness(s: State, xs: seq<Seen>, k: StatementClass)
    requires s.cycles == [] && Ending(k)
    ensures Sound(Run(s, xs), History(s, xs), k)
  {
    if xs != [] {
      var front := xs[..|xs| - 1];
      CompletionSoundness(s, front, k);
      SoundStep(Run(s, front), xs[|xs| - 1], History(s, front), k);
    }
  }

  // ---- counting -----------------------------------------------------------

  function Occurrences(tr: seq<Event>, n: EventName): nat {
    if tr == [] then 0
    else Occurrences(tr[..|tr| - 1], n) + if tr[|tr| - 1].name == n then 1 else 0
  }

  function CyclesOf(tr: seq<Event>, n: EventName): set<nat> {
    set i | 0 <= i < |tr| && tr[i].name == n :: tr[i].cycle
  }

  lemma CyclesOfSnoc(tr: seq<Event>, n: EventName)
    requires tr != []
    ensures var e := tr[|tr| - 1];
            CyclesOf(tr, n) == CyclesOf(tr[..|tr| - 1], n) + if e.name == n then {e.cycle} else {}
  {
    var init := tr[..|tr| - 1];
    forall c | c in CyclesOf(tr, n)
      ensures c in CyclesOf(init, n) || (tr[|tr| - 1].name == n && c == tr[|tr| - 1].cycle)
    {
      var i :| 0 <= i < |tr| && tr[i].name == n && tr[i].cycle == c;
      if i < |init| {
        assert init[i] == tr[i];
      }
    }
    forall c | c in CyclesOf(init, n)
      ensures c in CyclesOf(tr, n)
    {
      var i :| 0 <= i < |init| && init[i].name == n && init[i].cycle == c;
      assert tr[i] == init[i];
    }
  }

  lemma {:induction false} CyclesBoundCount(tr: seq<Event>, n: EventName)
    ensures |CyclesOf(tr, n)| <= Occurrences(tr, n)
    ensures CompletedOnce(tr) && Completes(n) ==> |CyclesOf(tr, n)| == Occurrences(tr, n)
  {
    if tr != [] {
      var init := tr[..|tr| - 1];
      var e := tr[|tr| - 1];
      CyclesBoundCount(init, n);
      CyclesOfSnoc(tr, n);
      if CompletedOnce(tr) && Completes(n) {
        assert CompletedOnce(init);
        if e.name == n {
          assert e.cycle !in CyclesOf(init, n) by {
            forall i | 0 <= i < |init| && init[i].name == n
              ensures init[i].cycle < e.cycle
            {
              assert tr[i] == init[i];
            }
          }
        }
      }
    }
  }

  /** Completed commits (rollbacks) never outnumber the requested ones. */
  lemma CompletedNeverOutnumberRequested(s: State, xs: seq<Seen>, k: StatementClass)
    requires s.cycles == [] && Ending(k)
    ensures Occurrences(History(s, xs), DoneName(k)) <= Occurrences(History(s, xs), AskedName(k))
  {
    var tr := History(s, xs);
    CompletionSoundness(s, xs, k);
    var done, asked := CyclesOf(tr, DoneName(k)), CyclesOf(tr, AskedName(k));
    forall c | c in done
      ensures c in asked
    {
      var j :| 0 <= j < |tr| && tr[j].name == DoneName(k) && tr[j].cycle == c;
      var i :| 0 <= i < j && tr[i].name == AskedName(k) && tr[i].cycle == tr[j].cycle;
      assert tr[i].cycle in asked;
    }
    CyclesBoundCount(tr, DoneName(k));
    CyclesBoundCount(tr, AskedName(k));
    SubsetSize(done, asked);
  }

  lemma SubsetSize(a: set<nat>, b: set<nat>)
    requires a <= b
    ensures |a| <= |b|
  {
    assert b == a + (b - a);
  }
}
