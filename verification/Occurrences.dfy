/** The running number of an event: how many of its name the connection has made. */
module Occurrences {
  import opened Events
  import opened Observer
  import opened Runs
  import Completion

  /** Every event carries its number among those of its name. */
  predicate Running(tr: seq<Event>) {
    if tr == [] then true
    else
      var e := tr[|tr| - 1];
      Running(tr[..|tr| - 1]) && e.occurrence == Completion.Occurrences(tr[..|tr| - 1], e.name) + 1
  }

  /** The counters are those numbers. */
  ghost predicate Counted(s: State, tr: seq<Event>) {
    forall n: EventName :: Count(s, n) == Completion.Occurrences(tr, n)
  }

  /** The events of a step are one batch. */
  lemma StepIsBatch(s: State, x: Seen)
    ensures EventsOf(s, x) == Emit(Told(s, x), NamesOf(s, x), Side(x))
    ensures Advance(s, x).counters == Tally(Told(s, x), NamesOf(s, x)).counters
    ensures Told(s, x).counters == s.counters
  {
    match x {
      case FromClient(m, forwarded) =>
        var t, names := Received(s, m), ClientNames(s, m);
        TallyAppend(t, names, [QueryForwarded], Back);
        assert names + [] == names && Emit(t, names, Back) + [] == Emit(t, names, Back);
      case FromServer(m) =>
        CountersKept(Tally(Before(s, m), ServerNames(Before(s, m), m)), m);
    }
  }

  lemma CountersKept(t: State, m: ServerMessage)
    ensures After(t, m).counters == t.counters
  {
  }

  lemma NextNumber(tr: seq<Event>, e: Event)
    requires Running(tr) && e.occurrence == Completion.Occurrences(tr, e.name) + 1
    ensures Running(tr + [e])
    ensures forall n :: Completion.Occurrences(tr + [e], n) == Completion.Occurrences(tr, n) + if e.name == n then 1 else 0
  {
    assert (tr + [e])[..|tr|] == tr;
  }

  lemma {:induction false} BatchRuns(s: State, names: seq<EventName>, end: End, tr: seq<Event>)
    requires Running(tr) && Counted(s, tr)
    ensures Running(tr + Emit(s, names, end)) && Counted(Tally(s, names), tr + Emit(s, names, end))
    decreases |names|
  {
    if names == [] {
      assert tr + Emit(s, names, end) == tr;
    } else {
      var e := EventAt(s, names[0], end);
      OneEvent(s, names[0], end, tr, e);
      BatchRuns(Bump(s, names[0]), names[1..], end, tr + [e]);
      Associate(tr, e, Emit(Bump(s, names[0]), names[1..], end));
    }
  }

  lemma OneEvent(s: State, name: EventName, end: End, tr: seq<Event>, e: Event)
    requires Running(tr) && Counted(s, tr) && e == EventAt(s, name, end)
    ensures Running(tr + [e]) && Counted(Bump(s, name), tr + [e])
  {
    assert e.name == name && e.occurrence == Count(s, name) + 1;
    NextNumber(tr, e);
    forall n: EventName
      ensures Count(Bump(s, name), n) == Completion.Occurrences(tr + [e], n)
    {
      assert Count(s, n) == Completion.Occurrences(tr, n);
    }
  }

  lemma Associate(tr: seq<Event>, e: Event, es: seq<Event>)
    ensures tr + ([e] + es) == (tr + [e]) + es
  {
  }

  lemma CountedSame(s: State, t: State, tr: seq<Event>)
    requires Counted(s, tr) && s.counters == t.counters
    ensures Counted(t, tr)
  {
    forall n: EventName
      ensures Count(t, n) == Completion.Occurrences(tr, n)
    {
      assert Count(s, n) == Completion.Occurrences(tr, n);
    }
  }

  /** On every run the occurrence of an event counts the events of its name so far, itself included. */
  lemma {:induction false} OccurrencesCount(s: State, xs: seq<Seen>)
    requires s.counters == map[]
    ensures Running(History(s, xs)) && Counted(Run(s, xs), History(s, xs))
  {
    if xs != [] {
      var front, x := xs[..|xs| - 1], xs[|xs| - 1];
      OccurrencesCount(s, front);
      OneMore(Run(s, front), x, History(s, front));
    }
  }

  lemma OneMore(s: State, x: Seen, tr: seq<Event>)
    requires Running(tr) && Counted(s, tr)
    ensures Running(tr + EventsOf(s, x)) && Counted(Advance(s, x), tr + EventsOf(s, x))
  {
    StepIsBatch(s, x);
    CountedSame(s, Told(s, x), tr);
    BatchRuns(Told(s, x), NamesOf(s, x), Side(x), tr);
    CountedSame(Tally(Told(s, x), NamesOf(s, x)), Advance(s, x), tr + EventsOf(s, x));
  }
}
