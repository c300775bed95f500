/** Whole runs of the observer: client and server messages in any interleaving. */
module Runs {
  import opened Events
  import opened Observer

  /** A client message is followed by `query.forwarded` when it runs something and was not suppressed. */
  datatype Seen =
    | FromClient(request: ClientMessage, forwarded: bool)
    | FromServer(reply: ServerMessage)

  /** The state the events of a step describe. */
  function Told(s: State, x: Seen): State {
    match x
    case FromClient(m, _) => Received(s, m)
    case FromServer(m) => Before(s, m)
  }

  function Side(x: Seen): End {
    if x.FromClient? then Back else Front
  }

  function NamesOf(s: State, x: Seen): seq<EventName> {
    match x
    case FromClient(m, forwarded) =>
      ClientNames(s, m) + if forwarded && Executes(m) then [QueryForwarded] else []
    case FromServer(m) => ServerNames(Before(s, m), m)
  }

  function Advance(s: State, x: Seen): State {
    match x
    case FromClient(m, forwarded) =>
      if forwarded && Executes(m) then Forwarded(Frontend(s, m)) else Frontend(s, m)
    case FromServer(m) => Backend(s, m)
  }

  function EventsOf(s: State, x: Seen): seq<Event> {
    match x
    case FromClient(m, forwarded) =>
      FrontendEvents(s, m) + if forwarded && Executes(m) then ForwardedEvents(Frontend(s, m)) else []
    case FromServer(m) => BackendEvents(s, m)
  }

  function Run(s: State, xs: seq<Seen>): State {
    if xs == [] then s else Advance(Run(s, xs[..|xs| - 1]), xs[|xs| - 1])
  }

  /** Every event of a run, in order. */
  function History(s: State, xs: seq<Seen>): seq<Event> {
    if xs == [] then []
    else History(s, xs[..|xs| - 1]) + EventsOf(Run(s, xs[..|xs| - 1]), xs[|xs| - 1])
  }

  predicate Describes(e: Event, s: State, end: End) {
    e == EventAt(s, e.name, end).(occurrence := e.occurrence)
  }

  /** What a step leaves behind, apart from the counters. */
  function Left(s: State, x: Seen): State {
    match x
    case FromClient(_, _) => Told(s, x)
    case FromServer(m) => After(Told(s, x), m)
  }

  predicate SameButCounters(s: State, t: State) {
    s == t.(counters := s.counters)
  }

  lemma StepShape(s: State, x: Seen)
    ensures SameButCounters(Advance(s, x), Left(s, x))
    ensures |EventsOf(s, x)| == |NamesOf(s, x)|
    ensures forall i :: 0 <= i < |NamesOf(s, x)| ==>
      EventsOf(s, x)[i].name == NamesOf(s, x)[i] && Describes(EventsOf(s, x)[i], Told(s, x), Side(x))
  {
    match x {
      case FromClient(m, forwarded) => ClientStepShape(s, m, forwarded);
      case FromServer(m) => ServerStepShape(s, m);
    }
  }

  lemma ClientStepShape(s: State, m: ClientMessage, forwarded: bool)
    ensures var x := FromClient(m, forwarded);
            && SameButCounters(Advance(s, x), Received(s, m))
            && |EventsOf(s, x)| == |NamesOf(s, x)|
            && forall i :: 0 <= i < |NamesOf(s, x)| ==>
                 EventsOf(s, x)[i].name == NamesOf(s, x)[i] && Describes(EventsOf(s, x)[i], Received(s, m), Back)
  {
    var t, names := Received(s, m), ClientNames(s, m);
    TallyOnlyCounts(t, names);
    EmitShape(t, names, Back);
    assert Frontend(s, m) == t.(counters := Frontend(s, m).counters);
    TallyOnlyCounts(Frontend(s, m), [QueryForwarded]);
  }

  lemma ServerStepShape(s: State, m: ServerMessage)
    ensures var x := FromServer(m);
            && SameButCounters(Advance(s, x), Left(s, x))
            && |EventsOf(s, x)| == |NamesOf(s, x)|
            && forall i :: 0 <= i < |NamesOf(s, x)| ==>
                 EventsOf(s, x)[i].name == NamesOf(s, x)[i] && Describes(EventsOf(s, x)[i], Before(s, m), Front)
  {
    var t, names := Before(s, m), ServerNames(Before(s, m), m);
    TallyOnlyCounts(t, names);
    EmitShape(t, names, Front);
    AfterIgnoresCounters(t, Tally(t, names).counters, m);
  }

  lemma AfterIgnoresCounters(t: State, counters: map<EventName, nat>, m: ServerMessage)
    ensures After(t.(counters := counters), m) == After(t, m).(counters := counters)
  {
  }

  lemma RunPrefix(s: State, xs: seq<Seen>, k: nat)
    requires k < |xs|
    ensures Run(s, xs[..k + 1]) == Advance(Run(s, xs[..k]), xs[k])
  {
    assert xs[..k + 1][..k] == xs[..k] && xs[..k + 1][k] == xs[k];
  }

  /** A client message touches only the cycle it joins, which is then the newest. */
  lemma ClientCycles(s: State, m: ClientMessage)
    ensures !Opens(m) ==> Received(s, m) == s
    ensures Opens(m) ==>
      var cs := Received(s, m).cycles;
      && |cs| == |Older(s, m)| + 1
      && (forall i :: 0 <= i < |Older(s, m)| ==> cs[i] == Older(s, m)[i] == s.cycles[i])
      && cs[|Older(s, m)|].(epochAllocated := Joined(s, m).epochAllocated) == Joined(s, m)
  {
  }

  /** A server message touches only the oldest cycle. */
  lemma ServerCycles(s: State, m: ServerMessage)
    ensures After(Before(s, m), m).cycles ==
            if s.cycles == [] then []
            else if m.Ready? then s.cycles[1..]
            else [Finish(Answer(s.cycles[0], m), m)] + s.cycles[1..]
  {
  }

  // ---- cycle numbers ------------------------------------------------------

  /** Cycles are numbered from one without gaps, oldest first. */
  predicate Numbered(s: State) {
    |s.cycles| <= s.nextCycle &&
    forall i :: 0 <= i < |s.cycles| ==> s.cycles[i].id == s.nextCycle - |s.cycles| + 1 + i
  }

  /** The number of cycles that are already over. */
  function Closed(s: State): nat
    requires Numbered(s)
  {
    s.nextCycle - |s.cycles|
  }

  lemma NumberedClient(s: State, m: ClientMessage)
    requires Numbered(s)
    ensures Numbered(Received(s, m)) && Closed(Received(s, m)) == Closed(s)
  {
  }

  lemma NumberedServer(s: State, m: ServerMessage)
    requires Numbered(s)
    ensures Numbered(Before(s, m)) && Before(s, m).nextCycle == s.nextCycle && |Before(s, m).cycles| == |s.cycles|
    ensures Numbered(After(Before(s, m), m))
    ensures After(Before(s, m), m).nextCycle == s.nextCycle
    ensures m.Ready? && s.cycles != [] ==> |After(Before(s, m), m).cycles| == |s.cycles| - 1
    ensures !m.Ready? ==> |After(Before(s, m), m).cycles| == |s.cycles|
  {
  }

  lemma NumberedStep(s: State, x: Seen)
    requires Numbered(s)
    ensures Numbered(Told(s, x)) && Numbered(Advance(s, x)) && Closed(s) == Closed(Told(s, x)) <= Closed(Advance(s, x))
  {
    StepShape(s, x);
    match x {
      case FromClient(m, _) => NumberedClient(s, m);
      case FromServer(m) => NumberedServer(s, m);
    }
  }
}
